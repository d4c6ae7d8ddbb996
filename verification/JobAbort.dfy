/** What holds in every reachable state of every job, in both modes, whatever the machines do:
    an execution is either still queued or was dispatched, and an abort marks as SKIPPED exactly
    the executions that were never dispatched. */
module JobAbort {
  import opened Chunks
  import opened JobMachine

  function Undispatched(ids: seq<Id>, s: Job): set<Id> { SetOf(ids) - SetOf(s.log) }

  ghost predicate TaskOk(ids: seq<Id>, s: Job, t: Task) {
    match t
    case Write(e, st, _) => e in s.log && st != Skipped
    case Written(e, _, _) => e in s.log
    case Sending(e) => e in s.log
    case Skipping(es) => s.aborted && es <= Undispatched(ids, s)
    case SkipDone => s.aborted
    case _ => true
  }

  ghost predicate TasksOk(ids: seq<Id>, s: Job) {
    forall t :: t in s.pending ==> TaskOk(ids, s, t)
  }

  /** Every execution that is not dispatched yet waits in the queue, until an abort empties it. */
  ghost predicate QueueOk(ids: seq<Id>, s: Job) {
    && NoDup(s.queue)
    && (forall e :: e in s.queue ==> e in ids && e !in s.log)
    && (forall e :: e in s.log ==> e in ids)
    && (!s.aborted ==> forall e :: e in ids ==> e in s.queue || e in s.log)
  }

  ghost predicate SkipOk(ids: seq<Id>, s: Job) {
    && s.db.Keys == SetOf(ids)
    && (forall e :: e in s.db && s.db[e] == Skipped ==> s.aborted && e !in s.log)
    && (s.aborted ==>
          || Skipping(Undispatched(ids, s)) in s.pending
          || forall e :: e in Undispatched(ids, s) ==> e in s.db && s.db[e] == Skipped)
  }

  ghost predicate General(ids: seq<Id>, s: Job) {
    && NoDup(ids)
    && (s.batches == [] || Flatten(s.batches) == ids)
    && QueueOk(ids, s)
    && s.running <= SetOf(s.log)
    && s.inflight <= SetOf(s.log)
    && (forall e :: e in LaterWaves(s) ==> e !in s.log)
    && TasksOk(ids, s)
    && SkipOk(ids, s)
  }

  // --- waves of a duplicate-free list ---

  lemma WaveMembers(s: Job, ids: seq<Id>)
    requires NoDup(ids) && Flatten(s.batches) == ids
    ensures forall e :: e in CurrentBatch(s) ==> e in ids && e !in LaterWaves(s)
    ensures forall e :: e in LaterWaves(s) ==> e in ids
  {
    var k := s.currentBatch;
    if k < |s.batches| {
      FlattenTake(s.batches, k);
      FlattenSplit(s.batches, k + 1);
      NoDupSplit(Flatten(s.batches[..k + 1]), Flatten(s.batches[k + 1..]));
    }
  }

  lemma LaterShrinks(s: Job)
    ensures forall e :: e in LaterWaves(s.(currentBatch := s.currentBatch + 1)) ==> e in LaterWaves(s)
  {
    var k := s.currentBatch;
    if k + 2 <= |s.batches| {
      assert s.batches[k + 1..] == [s.batches[k + 1]] + s.batches[k + 2..];
      FlattenConcat([s.batches[k + 1]], s.batches[k + 2..]);
    }
  }

  // --- each stretch of code keeps the invariant ---

  lemma AwaitKeeps(ids: seq<Id>, s: Job, t: Task)
    requires General(ids, s) && TaskOk(ids, s, t)
    ensures General(ids, Await(s, t))
  {
    var s' := Await(s, t);
    assert LaterWaves(s') == LaterWaves(s);
    assert Skipping(Undispatched(ids, s)) in s.pending ==> Skipping(Undispatched(ids, s)) in s'.pending;
    assert forall x :: x in s'.pending ==> x == t || x in s.pending;
    forall x | x in s'.pending ensures TaskOk(ids, s', x) {
      assert x == t || TaskOk(ids, s, x);
    }
  }

  lemma TakeKeeps(ids: seq<Id>, s: Job, t: Task)
    requires General(ids, s) && !t.Skipping?
    ensures General(ids, Take(s, t))
  {
  }

  /** Nothing the invariant says of queue, log and database depends on who is still running. */
  lemma SetsKeep(ids: seq<Id>, s: Job, running: set<Id>, inflight: set<Id>)
    requires General(ids, s) && running <= SetOf(s.log) && inflight <= SetOf(s.log)
    ensures General(ids, s.(running := running, inflight := inflight))
  {
    var s' := s.(running := running, inflight := inflight);
    assert LaterWaves(s') == LaterWaves(s);
    forall x | x in s'.pending ensures TaskOk(ids, s', x) {
      assert TaskOk(ids, s, x);
    }
  }

  lemma LogKeepsTasks(ids: seq<Id>, s: Job, e: Id)
    requires General(ids, s) && !s.aborted
    ensures var s' := s.(queue := RemoveFirst(s.queue, e), log := s.log + [e]);
            TasksOk(ids, s') && SkipOk(ids, s') && LaterWaves(s') == LaterWaves(s)
  {
    var s' := s.(queue := RemoveFirst(s.queue, e), log := s.log + [e]);
    hide QueueOk;
    assert LaterWaves(s') == LaterWaves(s);
    forall x | x in s'.pending ensures TaskOk(ids, s', x) {
      assert TaskOk(ids, s, x);
    }
  }

  /** Taking `e` off the queue and logging its dispatch. */
  lemma LogKeeps(ids: seq<Id>, s: Job, e: Id)
    requires General(ids, s) && e in ids && e !in LaterWaves(s) && !s.aborted
    ensures General(ids, s.(queue := RemoveFirst(s.queue, e), log := s.log + [e]))
  {
    hide TasksOk, SkipOk, LaterWaves;
    RemoveFirstSet(s.queue, e);
    RemoveFirstShorter(s.queue, e);
    assert forall x :: x in SetOf(RemoveFirst(s.queue, e)) <==> x in RemoveFirst(s.queue, e);
    LogKeepsTasks(ids, s, e);
  }

  lemma DispatchKeeps(ids: seq<Id>, s: Job, e: Id, online: set<Id>)
    requires General(ids, s) && e in ids && e !in LaterWaves(s)
    ensures General(ids, Dispatch(s, e, online))
  {
    if s.live && !s.aborted {
      LogKeeps(ids, s, e);
      var s1 := s.(queue := RemoveFirst(s.queue, e), log := s.log + [e]);
      if e in online {
        SetsKeep(ids, s1, s1.running + {e}, s1.inflight);
        AwaitKeeps(ids, s1.(running := s1.running + {e}), Write(e, Running, ThenSend));
      } else {
        AwaitKeeps(ids, s1, Write(e, Failed, ThenFinish));
      }
    }
  }

  lemma {:induction false} DispatchAllKeeps(ids: seq<Id>, s: Job, es: seq<Id>, online: set<Id>)
    requires General(ids, s)
    requires forall e :: e in es ==> e in ids && e !in LaterWaves(s)
    ensures General(ids, DispatchAll(s, es, online))
    decreases |es|
  {
    if es == [] {
    } else {
      DispatchKeeps(ids, s, es[0], online);
      var s1 := Dispatch(s, es[0], online);
      assert LaterWaves(s1) == LaterWaves(s);
      hide General, Dispatch, LaterWaves;
      DispatchAllKeeps(ids, s1, es[1..], online);
    }
  }

  /** `shift` and the dispatch that follows it together only dispatch the head of the queue. */
  lemma ShiftDispatch(s: Job, online: set<Id>)
    requires s.queue != [] && NoDup(s.queue) && s.live && !s.aborted
    ensures Dispatch(s.(queue := s.queue[1..]), s.queue[0], online) == Dispatch(s, s.queue[0], online)
    ensures Dispatch(s, s.queue[0], online).queue == s.queue[1..]
  {
    assert s.queue[0] !in s.queue[1..];
    RemoveFirstShorter(s.queue[1..], s.queue[0]);
  }

  lemma {:induction false} FillLoopKeeps(cfg: Config, ids: seq<Id>, s: Job, online: set<Id>)
    requires General(ids, s) && s.batches == [] && s.live && !s.aborted
    ensures General(ids, FillLoop(cfg, s, online))
    decreases |s.queue|
  {
    if |s.running| < Limit(cfg) && s.queue != [] {
      ShiftDispatch(s, online);
      DispatchKeeps(ids, s, s.queue[0], online);
      FillLoopKeeps(cfg, ids, Dispatch(s, s.queue[0], online), online);
    }
  }

  lemma CompleteKeeps(ids: seq<Id>, s: Job)
    requires General(ids, s)
    ensures General(ids, Complete(s))
  {
  }

  lemma FillKeeps(cfg: Config, ids: seq<Id>, s: Job, online: set<Id>)
    requires General(ids, s) && s.batches == []
    ensures General(ids, Fill(cfg, s, online))
  {
    if s.live && !s.aborted {
      FillLoopKeeps(cfg, ids, s, online);
      CompleteKeeps(ids, FillLoop(cfg, s, online));
    }
  }

  lemma RunWaveKeeps(ids: seq<Id>, s: Job, online: set<Id>)
    requires General(ids, s)
    ensures General(ids, RunWave(s, online))
  {
    if s.live && !s.aborted && CurrentBatch(s) != [] {
      WaveMembers(s, ids);
      DispatchAllKeeps(ids, s, CurrentBatch(s), online);
    }
  }

  lemma OnFinishedKeeps(cfg: Config, ids: seq<Id>, s: Job, e: Id, online: set<Id>)
    requires General(ids, s) && (cfg.mode.Parallel? ==> s.batches == [])
    ensures General(ids, OnFinished(cfg, s, e, online))
  {
    var s1 := s.(running := s.running - {e});
    SetsKeep(ids, s, s1.running, s.inflight);
    if s.live {
      if cfg.mode.Parallel? {
        FillKeeps(cfg, ids, s1, online);
      } else {
        AwaitKeeps(ids, s1, Counting(CurrentBatch(s1)));
      }
    }
  }

  /** At the moment a job is first aborted, the queue alone already holds every execution that
      was never dispatched; the wave slices add nothing to it. */
  lemma AbortKeeps(ids: seq<Id>, s: Job)
    requires General(ids, s)
    ensures General(ids, Abort(s))
    ensures s.live && !s.aborted ==> PendingIds(s) == SetOf(s.queue) == Undispatched(ids, s)
  {
    LaterInIds(ids, s);
    PendingIsQueue(ids, s);
    if s.live {
      hide General, QueueOk;
      ClearKeeps(ids, s);
      SamePending(s, ClearTimer(s));
      AbortTimerless(ids, ClearTimer(s));
      hide PendingIds;
    }
  }

  lemma TimerKeeps(ids: seq<Id>, s: Job, timer: bool)
    requires General(ids, s)
    ensures General(ids, s.(timer := timer))
  {
    var s' := s.(timer := timer);
    assert LaterWaves(s') == LaterWaves(s);
    forall x | x in s'.pending ensures TaskOk(ids, s', x) {
      assert TaskOk(ids, s, x);
    }
  }

  lemma ClearKeeps(ids: seq<Id>, s: Job)
    requires General(ids, s)
    ensures General(ids, ClearTimer(s))
  {
    hide General;
    TakeKeeps(ids, s, WaveTimer);
    TimerKeeps(ids, Take(s, WaveTimer), false);
    TimerKeeps(ids, s, false);
  }

  lemma SamePending(s: Job, s': Job)
    requires s' == s.(timer := s'.timer, pending := s'.pending)
    ensures PendingIds(s') == PendingIds(s)
  {
    assert LaterWaves(s') == LaterWaves(s);
  }

  lemma LaterInIds(ids: seq<Id>, s: Job)
    requires General(ids, s)
    ensures forall e :: e in LaterWaves(s) ==> e in ids
  {
    hide QueueOk, SkipOk, TasksOk;
    if s.batches != [] {
      WaveMembers(s, ids);
    }
  }

  lemma PendingIsQueue(ids: seq<Id>, s: Job)
    requires General(ids, s)
    ensures !s.aborted ==> PendingIds(s) == SetOf(s.queue) == Undispatched(ids, s)
  {
    hide SkipOk, TasksOk;
    LaterInIds(ids, s);
  }

  /** The same, once the wave timer is cleared. */
  lemma AbortTimerless(ids: seq<Id>, s: Job)
    requires General(ids, s)
    ensures General(ids, Await(s.(aborted := true), Skipping(PendingIds(s))))
  {
    var s' := Await(s.(aborted := true), Skipping(PendingIds(s)));
    assert LaterWaves(s') == LaterWaves(s);
    assert Undispatched(ids, s') == Undispatched(ids, s);
    LaterInIds(ids, s);
    PendingIsQueue(ids, s);
    AbortTasks(ids, s);
    hide TasksOk;
    assert s.aborted && Skipping(Undispatched(ids, s)) in s.pending ==> Skipping(Undispatched(ids, s)) in s'.pending;
    assert !s.aborted ==> Skipping(Undispatched(ids, s)) in s'.pending;
  }

  lemma AbortTasks(ids: seq<Id>, s: Job)
    requires General(ids, s) && forall e :: e in LaterWaves(s) ==> e in ids
    ensures TasksOk(ids, Await(s.(aborted := true), Skipping(PendingIds(s))))
  {
    hide SkipOk;
    var s' := Await(s.(aborted := true), Skipping(PendingIds(s)));
    assert PendingIds(s) <= Undispatched(ids, s);
    forall x | x in s'.pending ensures TaskOk(ids, s', x) {
      assert x == Skipping(PendingIds(s)) || TaskOk(ids, s, x);
    }
  }

  lemma AdvanceKeeps(ids: seq<Id>, s: Job)
    requires General(ids, s)
    ensures General(ids, s.(currentBatch := s.currentBatch + 1))
  {
    LaterShrinks(s);
    var s' := s.(currentBatch := s.currentBatch + 1);
    forall x | x in s'.pending ensures TaskOk(ids, s', x) {
      assert TaskOk(ids, s, x);
    }
  }

  lemma DecideKeeps(cfg: Config, ids: seq<Id>, s: Job, failures: nat, total: nat, online: set<Id>)
    requires General(ids, s)
    ensures General(ids, Decide(cfg, s, failures, total, online))
  {
    hide General, OverThreshold, Abort, Complete, RunWave, Await;
    if OverThreshold(cfg, failures, total) {
      AbortKeeps(ids, s);
    } else {
      AdvanceKeeps(ids, s);
      var s1 := s.(currentBatch := s.currentBatch + 1);
      CompleteKeeps(ids, s1);
      TimerKeeps(ids, s1, true);
      AwaitKeeps(ids, s1.(timer := true), WaveTimer);
      RunWaveKeeps(ids, s1, online);
    }
  }

  lemma CommitWriteKeeps(ids: seq<Id>, s: Job, e: Id, st: Status, next: Then)
    requires General(ids, s) && Write(e, st, next) in s.pending
    ensures General(ids, CommitTask(s, Write(e, st, next)))
  {
    assert TaskOk(ids, s, Write(e, st, next));
    TakeKeeps(ids, s, Write(e, st, next));
    var s0 := Take(s, Write(e, st, next));
    var s1 := s0.(db := SetStatus(s0.db, e, st));
    assert LaterWaves(s1) == LaterWaves(s0);
    forall x | x in s1.pending ensures TaskOk(ids, s1, x) {
      assert TaskOk(ids, s0, x);
    }
    assert General(ids, s1);
    AwaitKeeps(ids, s1, Written(e, st, next));
  }

  /** Marking the undispatched executions is what makes an abort exact; a later abort marks no others. */
  lemma CommitSkipKeeps(ids: seq<Id>, s: Job, es: set<Id>)
    requires General(ids, s) && Skipping(es) in s.pending
    ensures General(ids, CommitTask(s, Skipping(es)))
  {
    assert TaskOk(ids, s, Skipping(es));
    var s0 := Take(s, Skipping(es));
    var s1 := s0.(db := SkipRows(s0.db, es));
    assert LaterWaves(s1) == LaterWaves(s);
    forall x | x in s1.pending ensures TaskOk(ids, s1, x) {
      assert TaskOk(ids, s, x);
    }
    assert Undispatched(ids, s1) == Undispatched(ids, s);
    if es != Undispatched(ids, s) && Skipping(Undispatched(ids, s)) in s.pending {
      assert Skipping(Undispatched(ids, s)) in s1.pending;
    }
    assert SkipOk(ids, s1);
    AwaitKeeps(ids, s1, SkipDone);
  }

  lemma CommitKeeps(ids: seq<Id>, s: Job, t: Task)
    requires General(ids, s) && t in s.pending && NeedsCommit(t)
    ensures General(ids, CommitTask(s, t))
  {
    match t
    case Write(e, st, next) => CommitWriteKeeps(ids, s, e, st, next);
    case Skipping(es) => CommitSkipKeeps(ids, s, es);
    case Counting(batch) =>
      TakeKeeps(ids, s, t);
      var s0 := Take(s, t);
      AwaitKeeps(ids, s0, Counted(|FailedRows(s0.db, batch)|, |Rows(s0.db, batch)|));
  }

  lemma AfterSendKeeps(ids: seq<Id>, s: Job, e: Id, sent: bool)
    requires General(ids, s) && e in s.log
    ensures General(ids, AfterSend(s, e, sent))
  {
    SetsKeep(ids, s, s.running - {e}, s.inflight);
    AwaitKeeps(ids, s.(running := s.running - {e}), Write(e, Failed, ThenFinish));
  }

  lemma AfterWriteKeeps(cfg: Config, ids: seq<Id>, s: Job, e: Id, next: Then, online: set<Id>)
    requires General(ids, s) && (cfg.mode.Parallel? ==> s.batches == []) && e in s.log
    ensures General(ids, AfterWrite(cfg, s, e, next, online))
  {
    match next
    case ThenSend =>
      SetsKeep(ids, s, s.running, s.inflight + {e});
      AwaitKeeps(ids, s.(inflight := s.inflight + {e}), Sending(e));
    case ThenFinish => OnFinishedKeeps(cfg, ids, s, e, online);
    case ThenFinishReported =>
      SetsKeep(ids, s, s.running, s.inflight - {e});
      OnFinishedKeeps(cfg, ids, s.(inflight := s.inflight - {e}), e, online);
  }

  lemma EmptyQueueKeeps(ids: seq<Id>, s: Job)
    requires General(ids, s) && s.aborted
    ensures General(ids, s.(queue := []))
  {
    var s' := s.(queue := []);
    assert LaterWaves(s') == LaterWaves(s);
    forall x | x in s'.pending ensures TaskOk(ids, s', x) {
      assert TaskOk(ids, s, x);
    }
  }

  lemma ResumeKeeps(cfg: Config, ids: seq<Id>, s: Job, t: Task, online: set<Id>, sent: bool)
    requires General(ids, s) && (cfg.mode.Parallel? ==> s.batches == [])
    requires t in s.pending && !NeedsCommit(t)
    ensures General(ids, ResumeTask(cfg, s, t, online, sent))
  {
    TakeKeeps(ids, s, t);
    var s0 := Take(s, t);
    assert TaskOk(ids, s, t);
    match t
    case Starting =>
      if cfg.mode.Rolling? { RunWaveKeeps(ids, s0, online); } else { FillKeeps(cfg, ids, s0, online); }
    case Written(e, _, next) => AfterWriteKeeps(cfg, ids, s0, e, next, online);
    case Sending(e) => AfterSendKeeps(ids, s0, e, sent);
    case Counted(failures, total) => DecideKeeps(cfg, ids, s0, failures, total, online);
    case WaveTimer => RunWaveKeeps(ids, s0, online);
    case SkipDone => EmptyQueueKeeps(ids, s0);
    case Completing =>
      assert LaterWaves(s0.(live := false)) == LaterWaves(s0);
  }

  lemma StepKeeps(cfg: Config, ids: seq<Id>, s: Job, step: Step)
    requires General(ids, s) && (cfg.mode.Parallel? ==> s.batches == [])
    requires Enabled(s, step)
    ensures General(ids, Next(cfg, s, step))
  {
    match step
    case Commit(t) => CommitKeeps(ids, s, t);
    case Resume(t, online, sent) => ResumeKeeps(cfg, ids, s, t, online, sent);
    case Report(e, st) => AwaitKeeps(ids, s, Write(e, st, ThenFinishReported));
    case UserAbort => AbortKeeps(ids, s);
  }

  // --- waves never change; an aborted job dispatches nothing more ---

  lemma {:induction false} DispatchAllFrame(s: Job, es: seq<Id>, online: set<Id>)
    ensures DispatchAll(s, es, online).batches == s.batches
    ensures DispatchAll(s, es, online).currentBatch == s.currentBatch
    ensures s.aborted ==> DispatchAll(s, es, online) == s
    decreases |es|
  {
    if es == [] {
    } else {
      DispatchAllFrame(Dispatch(s, es[0], online), es[1..], online);
    }
  }

  lemma {:induction false} FillLoopFrame(cfg: Config, s: Job, online: set<Id>)
    ensures FillLoop(cfg, s, online).batches == s.batches
    decreases |s.queue|
  {
    if |s.running| < Limit(cfg) && s.queue != [] {
      RemoveFirstShorter(s.queue[1..], s.queue[0]);
      FillLoopFrame(cfg, Dispatch(s.(queue := s.queue[1..]), s.queue[0], online), online);
    }
  }

  lemma RunWaveFrame(s: Job, online: set<Id>)
    ensures RunWave(s, online).batches == s.batches
  {
    DispatchAllFrame(s, CurrentBatch(s), online);
  }

  lemma OnFinishedFrame(cfg: Config, s: Job, e: Id, online: set<Id>)
    ensures OnFinished(cfg, s, e, online).batches == s.batches
  {
    FillLoopFrame(cfg, s.(running := s.running - {e}), online);
  }

  lemma ResumeFrame(cfg: Config, s: Job, t: Task, online: set<Id>, sent: bool)
    requires !NeedsCommit(t)
    ensures ResumeTask(cfg, s, t, online, sent).batches == s.batches
  {
    var s0 := Take(s, t);
    match t
    case Starting =>
      RunWaveFrame(s0, online);
      FillLoopFrame(cfg, s0, online);
    case Written(e, _, _) =>
      OnFinishedFrame(cfg, s0, e, online);
      OnFinishedFrame(cfg, s0.(inflight := s0.inflight - {e}), e, online);
    case Counted(_, _) => RunWaveFrame(s0.(currentBatch := s0.currentBatch + 1), online);
    case WaveTimer => RunWaveFrame(s0, online);
    case _ =>
  }

  lemma StepFrame(cfg: Config, s: Job, step: Step)
    requires Enabled(s, step)
    ensures Next(cfg, s, step).batches == s.batches
  {
    if step.Resume? {
      ResumeFrame(cfg, s, step.t, step.online, step.sent);
    }
  }

  /** Once `aborted` is set, no step of any kind dispatches an execution or adds to `running`. */
  lemma AbortFreezes(cfg: Config, s: Job, step: Step)
    requires s.aborted && Enabled(s, step)
    ensures var s' := Next(cfg, s, step);
            s'.aborted && s'.log == s.log && s'.running <= s.running
  {
  }

  // --- whole runs ---

  lemma {:induction false} RunKeeps(cfg: Config, ids: seq<Id>, from: Job, steps: seq<Step>, s: Job)
    requires General(ids, from) && (cfg.mode.Parallel? ==> from.batches == [])
    requires Reaches(cfg, from, steps, s)
    ensures General(ids, s) && s.batches == from.batches
    decreases |steps|
  {
    if steps == [] {
    } else {
      StepKeeps(cfg, ids, from, steps[0]);
      StepFrame(cfg, from, steps[0]);
      RunKeeps(cfg, ids, Next(cfg, from, steps[0]), steps[1..], s);
    }
  }

  /** The invariant holds in every reachable state of every job. */
  lemma ReachableGeneral(cfg: Config, ids: seq<Id>, waves: seq<seq<Id>>, steps: seq<Step>, s: Job)
    requires Startable(cfg, ids, waves) && Reaches(cfg, InitialJob(cfg, ids, waves), steps, s)
    ensures General(ids, s)
    ensures s.batches == InitialJob(cfg, ids, waves).batches
  {
    var s0 := InitialJob(cfg, ids, waves);
    assert forall e :: e in LaterWaves(s0) ==> e !in s0.log;
    RunKeeps(cfg, ids, s0, steps, s);
  }

  /** While a job is not aborted, the waves above the current one are still queued in full. */
  lemma LaterWavesAreQueued(cfg: Config, ids: seq<Id>, waves: seq<seq<Id>>, steps: seq<Step>, s: Job)
    requires Startable(cfg, ids, waves) && Reaches(cfg, InitialJob(cfg, ids, waves), steps, s)
    requires !s.aborted
    ensures SetOf(LaterWaves(s)) <= SetOf(s.queue) == Undispatched(ids, s)
  {
    ReachableGeneral(cfg, ids, waves, steps, s);
    if s.batches != [] {
      WaveMembers(s, ids);
    }
  }

  /** Abort is exact: once the abort's database update is through, the executions marked SKIPPED
      are those that were never dispatched, no more and no fewer. */
  lemma AbortIsExact(cfg: Config, ids: seq<Id>, waves: seq<seq<Id>>, steps: seq<Step>, s: Job)
    requires Startable(cfg, ids, waves) && Reaches(cfg, InitialJob(cfg, ids, waves), steps, s)
    requires s.aborted && forall t :: t in s.pending ==> !t.Skipping?
    ensures (set e | e in s.db && s.db[e] == Skipped) == SetOf(ids) - SetOf(s.log)
  {
    ReachableGeneral(cfg, ids, waves, steps, s);
  }

  /** The set of dispatched executions and the bound on `running` are settled by the first abort,
      however long the job goes on. */
  lemma {:induction false} NothingAfterAbort(cfg: Config, s: Job, steps: seq<Step>, later: Job)
    requires s.aborted && Reaches(cfg, s, steps, later)
    ensures later.aborted && later.log == s.log && later.running <= s.running
    decreases |steps|
  {
    if steps == [] {
    } else {
      AbortFreezes(cfg, s, steps[0]);
      NothingAfterAbort(cfg, Next(cfg, s, steps[0]), steps[1..], later);
    }
  }
}
