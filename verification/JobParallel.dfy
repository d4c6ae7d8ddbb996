/** Parallel mode: the concurrency cap, dispatch in order and once, when `completeJob` is called,
    progress, and that a job with nothing outstanding is a finished job. No assumption is made
    about the machines, about how often a result is reported, or about aborts. */
module JobParallel {
  import opened Wrappers
  import opened Chunks
  import opened JobMachine
  import opened JobAbort

  ghost predicate Finishing(s: Job) {
    exists e :: Write(e, Failed, ThenFinish) in s.pending || Written(e, Failed, ThenFinish) in s.pending
  }

  /** The part that also holds in the middle of a stretch. */
  ghost predicate Flow(cfg: Config, ids: seq<Id>, s: Job) {
    && General(ids, s)
    && s.batches == []
    && s.log <= ids
    && (!s.aborted ==> s.log + s.queue == ids)
    && |s.running| <= Limit(cfg)
    && (s.completions > 0 ==> s.running == {} && s.queue == [])
    && (!s.live || Completing in s.pending <==> s.completions > 0)
    && (forall t :: t in s.pending ==> !t.Counted? && !t.Counting? && !t.WaveTimer?)
    && (forall t :: t in s.pending && (t.Write? || t.Written?) && t.next.ThenFinish? ==> t.st == Failed)
  }

  /** Somebody will still call `fillParallel`, unless the job is over. */
  ghost predicate Awake(s: Job) {
    s.aborted || s.completions > 0 || Starting in s.pending || s.running != {} || Finishing(s)
  }

  function Measure(s: Job): nat { 2 * |s.queue| + |s.running| }

  /** Between `s` and `s'` the measure paid at least 1 for every dispatch and for every execution
      that left `running`. */
  ghost predicate Progress(s: Job, s': Job) {
    && |s'.log| >= |s.log|
    && Measure(s') + (|s'.log| - |s.log|) + |s.running - s'.running| <= Measure(s)
  }

  // --- the stretches ---

  /** The awaits a dispatch starts. */
  predicate Dispatched(t: Task) {
    t.Write? && (t.next.ThenSend? || (t.next.ThenFinish? && t.st == Failed))
  }

  ghost predicate LoopStep(s: Job, s': Job) {
    && s'.log + s'.queue == s.log + s.queue
    && |s'.log| >= |s.log|
    && s.running <= s'.running
    && 2 * |s'.queue| + |s'.running| + |s'.log| <= 2 * |s.queue| + |s.running| + |s.log|
    && s'.live == s.live && s'.aborted == s.aborted
    && s'.completions == s.completions && s'.batches == s.batches
    && (Completing in s'.pending <==> Completing in s.pending)
    && (forall t :: t in s'.pending ==> t in s.pending || Dispatched(t))
  }

  lemma DispatchHead(ids: seq<Id>, s: Job, online: set<Id>)
    requires General(ids, s) && s.live && !s.aborted && s.queue != []
    ensures LoopStep(s, Dispatch(s, s.queue[0], online))
    ensures |Dispatch(s, s.queue[0], online).running| <= |s.running| + 1
  {
    ShiftDispatch(s, online);
    var e := s.queue[0];
    var s' := Dispatch(s, e, online);
    DispatchShape(s, e, online);
    hide General, Dispatch;
    assert s.log + s.queue == (s.log + [e]) + s.queue[1..];
    assert s'.queue == s.queue[1..];
  }

  lemma DispatchShape(s: Job, e: Id, online: set<Id>)
    requires s.live && !s.aborted
    ensures var s' := Dispatch(s, e, online);
            && s'.log == s.log + [e]
            && s.running <= s'.running && |s'.running| <= |s.running| + 1
            && s'.live == s.live && s'.aborted == s.aborted
            && s'.completions == s.completions && s'.batches == s.batches
            && (Completing in s'.pending <==> Completing in s.pending)
            && (forall t :: t in s'.pending ==> t in s.pending || Dispatched(t))
  {
    var s' := Dispatch(s, e, online);
    var t := if e in online then Write(e, Running, ThenSend) else Write(e, Failed, ThenFinish);
    assert s'.pending == s.pending + multiset{t};
    assert s'.running == if e in online then s.running + {e} else s.running;
  }

  lemma {:induction false} FillLoopFlow(cfg: Config, ids: seq<Id>, s: Job, online: set<Id>)
    requires General(ids, s) && s.batches == [] && s.live && !s.aborted && |s.running| <= Limit(cfg)
    ensures var s' := FillLoop(cfg, s, online);
            LoopStep(s, s') && |s'.running| <= Limit(cfg) && (s'.queue == [] || |s'.running| >= Limit(cfg))
    decreases |s.queue|
  {
    if |s.running| < Limit(cfg) && s.queue != [] {
      ShiftDispatch(s, online);
      DispatchHead(ids, s, online);
      DispatchKeeps(ids, s, s.queue[0], online);
      FillLoopFlow(cfg, ids, Dispatch(s, s.queue[0], online), online);
    }
  }

  lemma FillFlow(cfg: Config, ids: seq<Id>, s: Job, online: set<Id>)
    requires Flow(cfg, ids, s) && Limit(cfg) >= 1
    ensures var s' := Fill(cfg, s, online);
            Flow(cfg, ids, s') && Awake(s') && Progress(s, s')
            && (s'.completions > s.completions ==> s'.running == {} && s'.queue == [])
  {
    FillKeeps(cfg, ids, s, online);
    if s.live && !s.aborted {
      FillLoopFlow(cfg, ids, s, online);
      var s1 := FillLoop(cfg, s, online);
      assert s1.log + s1.queue == ids;
      assert s1.log <= ids;
      assert s.running - s1.running == {};
    } else {
      assert s.running - s.running == {};
    }
  }

  lemma Leaves(s: Job, e: Id)
    ensures Progress(s, s.(running := s.running - {e}))
    ensures |s.running - {e}| <= |s.running|
  {
    if e in s.running {
      assert s.running - (s.running - {e}) == {e};
    } else {
      assert s.running - {e} == s.running;
      assert s.running - s.running == {};
    }
  }

  lemma ProgressTrans(s: Job, m: Job, s': Job)
    requires Progress(s, m) && Progress(m, s')
    ensures Progress(s, s')
  {
    var gone := s.running - s'.running;
    assert gone <= (s.running - m.running) + (m.running - s'.running);
    CardUpTo(gone, (s.running - m.running) + (m.running - s'.running));
  }

  lemma FinishFlow(cfg: Config, ids: seq<Id>, s: Job, e: Id, online: set<Id>)
    requires Flow(cfg, ids, s) && Limit(cfg) >= 1 && cfg.mode.Parallel?
    ensures var s' := OnFinished(cfg, s, e, online);
            Flow(cfg, ids, s') && Awake(s') && Progress(s, s')
            && (s'.completions > s.completions ==> s'.running == {} && s'.queue == [])
  {
    if s.live {
      var s1 := s.(running := s.running - {e});
      Leaves(s, e);
      SetsKeep(ids, s, s1.running, s.inflight);
      FillFlow(cfg, ids, s1, online);
      ProgressTrans(s, s1, Fill(cfg, s1, online));
    } else {
      assert s.running - s.running == {};
    }
  }

  // --- steps ---

  ghost predicate Good(cfg: Config, ids: seq<Id>, s: Job) { Flow(cfg, ids, s) && Awake(s) }

  ghost predicate StepGood(cfg: Config, ids: seq<Id>, s: Job, s': Job) {
    && Good(cfg, ids, s')
    && Progress(s, s')
    && (s'.completions > s.completions ==> s'.running == {} && s'.queue == [])
  }

  lemma CommitGood(cfg: Config, ids: seq<Id>, s: Job, t: Task)
    requires Good(cfg, ids, s) && t in s.pending && NeedsCommit(t)
    ensures StepGood(cfg, ids, s, CommitTask(s, t))
  {
    hide General, Finishing;
    CommitKeeps(ids, s, t);
    CommitFrame(s, t);
    var s' := CommitTask(s, t);
    assert s.running - s'.running == {};
    if Finishing(s) {
      CommitFinishing(s, t);
    }
  }

  /** Committing only touches the database and the awaits. */
  lemma CommitFrame(s: Job, t: Task)
    requires t in s.pending && NeedsCommit(t)
    ensures var s' := CommitTask(s, t);
            && s' == s.(db := s'.db, pending := s'.pending)
            && (forall x :: x in s'.pending ==>
                  x in s.pending || (t.Write? && x == Written(t.e, t.st, t.next)) || (t.Counting? && x.Counted?) || x.SkipDone?)
            && (forall x :: x in s.pending && !NeedsCommit(x) ==> x in s'.pending)
            && (Completing in s'.pending ==> Completing in s.pending)
  {
  }

  lemma CommitFinishing(s: Job, t: Task)
    requires t in s.pending && NeedsCommit(t) && Finishing(s)
    ensures Finishing(CommitTask(s, t))
  {
    var s' := CommitTask(s, t);
    var e :| Write(e, Failed, ThenFinish) in s.pending || Written(e, Failed, ThenFinish) in s.pending;
    if t == Write(e, Failed, ThenFinish) {
      assert Written(e, Failed, ThenFinish) in s'.pending;
    } else {
      assert Write(e, Failed, ThenFinish) in s'.pending || Written(e, Failed, ThenFinish) in s'.pending;
    }
  }

  lemma SendGood(cfg: Config, ids: seq<Id>, s: Job, e: Id, sent: bool)
    requires Good(cfg, ids, s) && Sending(e) in s.pending
    ensures StepGood(cfg, ids, s, AfterSend(Take(s, Sending(e)), e, sent))
  {
    TakeFlow(cfg, ids, s, Sending(e));
    if sent {
      StillFinishing(s, Take(s, Sending(e)), Sending(e));
    } else {
      assert TaskOk(ids, s, Sending(e));
      UnsentGood(cfg, ids, Take(s, Sending(e)), e);
      ProgressTrans(s, Take(s, Sending(e)), AfterSend(Take(s, Sending(e)), e, false));
    }
  }

  lemma UnsentGood(cfg: Config, ids: seq<Id>, s: Job, e: Id)
    requires Flow(cfg, ids, s) && e in s.log
    ensures StepGood(cfg, ids, s, AfterSend(s, e, false))
  {
    AfterSendKeeps(ids, s, e, false);
    Leaves(s, e);
    var s' := AfterSend(s, e, false);
    assert Write(e, Failed, ThenFinish) in s'.pending;
    assert Completing in s'.pending <==> Completing in s.pending;
  }

  lemma StillFinishing(s: Job, s': Job, t: Task)
    requires forall x :: x in s.pending && x != t ==> x in s'.pending
    requires (t.Write? || t.Written?) ==> !t.next.ThenFinish?
    ensures Finishing(s) ==> Finishing(s')
  {
    if Finishing(s) {
      var e :| Write(e, Failed, ThenFinish) in s.pending || Written(e, Failed, ThenFinish) in s.pending;
      assert Write(e, Failed, ThenFinish) in s'.pending || Written(e, Failed, ThenFinish) in s'.pending;
    }
  }

  lemma TakeFlow(cfg: Config, ids: seq<Id>, s: Job, t: Task)
    requires Flow(cfg, ids, s) && t in s.pending && !t.Skipping? && !t.Completing?
    ensures Flow(cfg, ids, Take(s, t)) && Progress(s, Take(s, t))
  {
    TakeKeeps(ids, s, t);
    assert s.running - s.running == {};
  }

  lemma SentGood(cfg: Config, ids: seq<Id>, s: Job, e: Id, st: Status)
    requires Good(cfg, ids, s) && Written(e, st, ThenSend) in s.pending
    ensures StepGood(cfg, ids, s, AfterWrite(cfg, Take(s, Written(e, st, ThenSend)), e, ThenSend, {}))
  {
    var t := Written(e, st, ThenSend);
    assert TaskOk(ids, s, t);
    TakeFlow(cfg, ids, s, t);
    InFlightFlow(cfg, ids, Take(s, t), e);
    StillFinishing(s, AfterWrite(cfg, Take(s, t), e, ThenSend, {}), t);
  }

  lemma InFlightFlow(cfg: Config, ids: seq<Id>, s: Job, e: Id)
    requires Flow(cfg, ids, s) && e in s.log
    ensures Flow(cfg, ids, Await(s.(inflight := s.inflight + {e}), Sending(e)))
  {
    SetsKeep(ids, s, s.running, s.inflight + {e});
    AwaitKeeps(ids, s.(inflight := s.inflight + {e}), Sending(e));
    var s' := Await(s.(inflight := s.inflight + {e}), Sending(e));
    assert Completing in s'.pending <==> Completing in s.pending;
  }

  lemma FinishedGood(cfg: Config, ids: seq<Id>, s: Job, t: Task, online: set<Id>, inflight: set<Id>)
    requires Good(cfg, ids, s) && Limit(cfg) >= 1 && cfg.mode.Parallel?
    requires t.Written? && t in s.pending && inflight <= s.inflight
    ensures StepGood(cfg, ids, s, OnFinished(cfg, Take(s, t).(inflight := inflight), t.e, online))
  {
    TakeFlow(cfg, ids, s, t);
    var s0 := Take(s, t);
    var s1 := s0.(inflight := inflight);
    SetsKeep(ids, s0, s0.running, inflight);
    assert Flow(cfg, ids, s1);
    FinishFlow(cfg, ids, s1, t.e, online);
    assert Progress(s, s1) by {
      assert s.running - s1.running == {};
    }
    ProgressTrans(s, s1, OnFinished(cfg, s1, t.e, online));
  }

  lemma WrittenGood(cfg: Config, ids: seq<Id>, s: Job, e: Id, st: Status, next: Then, online: set<Id>)
    requires Good(cfg, ids, s) && Limit(cfg) >= 1 && cfg.mode.Parallel?
    requires Written(e, st, next) in s.pending
    ensures StepGood(cfg, ids, s, AfterWrite(cfg, Take(s, Written(e, st, next)), e, next, online))
  {
    var t := Written(e, st, next);
    match next
    case ThenSend => SentGood(cfg, ids, s, e, st);
    case ThenFinish =>
      FinishedGood(cfg, ids, s, t, online, s.inflight);
      assert Take(s, t).(inflight := s.inflight) == Take(s, t);
    case ThenFinishReported => FinishedGood(cfg, ids, s, t, online, s.inflight - {e});
  }

  lemma StartGood(cfg: Config, ids: seq<Id>, s: Job, online: set<Id>)
    requires Good(cfg, ids, s) && Limit(cfg) >= 1 && Starting in s.pending
    ensures StepGood(cfg, ids, s, Fill(cfg, Take(s, Starting), online))
  {
    TakeFlow(cfg, ids, s, Starting);
    FillFlow(cfg, ids, Take(s, Starting), online);
    ProgressTrans(s, Take(s, Starting), Fill(cfg, Take(s, Starting), online));
  }

  lemma SkipDoneGood(cfg: Config, ids: seq<Id>, s: Job)
    requires Good(cfg, ids, s) && SkipDone in s.pending
    ensures StepGood(cfg, ids, s, Take(s, SkipDone).(queue := []))
  {
    assert TaskOk(ids, s, SkipDone);
    TakeKeeps(ids, s, SkipDone);
    EmptyQueueKeeps(ids, Take(s, SkipDone));
    var s' := Take(s, SkipDone).(queue := []);
    assert s.running - s'.running == {};
  }

  lemma CompletingGood(cfg: Config, ids: seq<Id>, s: Job)
    requires Good(cfg, ids, s) && Completing in s.pending
    ensures StepGood(cfg, ids, s, Take(s, Completing).(live := false))
  {
    TakeKeeps(ids, s, Completing);
    var s' := Take(s, Completing).(live := false);
    assert LaterWaves(s') == LaterWaves(s);
    assert General(ids, s') by {
      forall x | x in s'.pending ensures TaskOk(ids, s', x) {
        assert TaskOk(ids, s, x);
      }
    }
    assert s.running - s'.running == {};
  }

  lemma ResumeGood(cfg: Config, ids: seq<Id>, s: Job, t: Task, online: set<Id>, sent: bool)
    requires Good(cfg, ids, s) && Limit(cfg) >= 1 && cfg.mode.Parallel?
    requires t in s.pending && !NeedsCommit(t)
    ensures StepGood(cfg, ids, s, ResumeTask(cfg, s, t, online, sent))
  {
    match t
    case Written(e, st, next) => WrittenGood(cfg, ids, s, e, st, next, online);
    case Sending(e) => SendGood(cfg, ids, s, e, sent);
    case Starting => StartGood(cfg, ids, s, online);
    case SkipDone => SkipDoneGood(cfg, ids, s);
    case Completing => CompletingGood(cfg, ids, s);
  }

  lemma ReportGood(cfg: Config, ids: seq<Id>, s: Job, e: Id, st: Status)
    requires Good(cfg, ids, s) && Enabled(s, Report(e, st))
    ensures StepGood(cfg, ids, s, Await(s, Write(e, st, ThenFinishReported)))
  {
    var s' := Await(s, Write(e, st, ThenFinishReported));
    AwaitKeeps(ids, s, Write(e, st, ThenFinishReported));
    assert s.running - s'.running == {};
    StillFinishing(s, s', Starting);
  }

  lemma AbortGood(cfg: Config, ids: seq<Id>, s: Job)
    requires Good(cfg, ids, s)
    ensures StepGood(cfg, ids, s, Abort(s))
  {
    AbortKeeps(ids, s);
    assert s.running - Abort(s).running == {};
  }

  lemma StepGoodHolds(cfg: Config, ids: seq<Id>, s: Job, step: Step)
    requires Good(cfg, ids, s) && Limit(cfg) >= 1 && cfg.mode.Parallel? && Enabled(s, step)
    ensures StepGood(cfg, ids, s, Next(cfg, s, step))
  {
    match step
    case Commit(t) => CommitGood(cfg, ids, s, t);
    case Resume(t, online, sent) => ResumeGood(cfg, ids, s, t, online, sent);
    case Report(e, st) => ReportGood(cfg, ids, s, e, st);
    case UserAbort => AbortGood(cfg, ids, s);
  }

  lemma {:induction false} RunGood(cfg: Config, ids: seq<Id>, from: Job, steps: seq<Step>, s: Job)
    requires Good(cfg, ids, from) && Limit(cfg) >= 1 && cfg.mode.Parallel?
    requires Reaches(cfg, from, steps, s)
    ensures Good(cfg, ids, s)
    decreases |steps|
  {
    if steps == [] {
    } else {
      StepGoodHolds(cfg, ids, from, steps[0]);
      RunGood(cfg, ids, Next(cfg, from, steps[0]), steps[1..], s);
    }
  }

  // --- the theorems ---

  ghost predicate ParallelRun(cfg: Config, ids: seq<Id>, steps: seq<Step>, s: Job) {
    && NoDup(ids)
    && cfg.mode.Parallel?
    && Limit(cfg) >= 1
    && Reaches(cfg, InitialJob(cfg, ids, []), steps, s)
  }

  lemma ReachableGood(cfg: Config, ids: seq<Id>, steps: seq<Step>, s: Job)
    requires ParallelRun(cfg, ids, steps, s)
    ensures Good(cfg, ids, s)
  {
    var s0 := InitialJob(cfg, ids, []);
    assert Starting in s0.pending;
    RunGood(cfg, ids, s0, steps, s);
  }

  /** In every reachable state the cap holds, and the dispatches so far are a prefix of the target
      list: each execution leaves the queue once, in order. */
  lemma CapAndOrder(cfg: Config, ids: seq<Id>, steps: seq<Step>, s: Job)
    requires ParallelRun(cfg, ids, steps, s)
    ensures |s.running| <= Limit(cfg) <= 50
    ensures cfg.concurrency.Some? && cfg.concurrency.value > 0 ==> |s.running| <= cfg.concurrency.value
    ensures s.log <= ids && NoDup(s.log)
    ensures !s.aborted ==> s.log + s.queue == ids
  {
    ReachableGood(cfg, ids, steps, s);
    assert ids == s.log + ids[|s.log|..];
    NoDupSplit(s.log, ids[|s.log|..]);
  }

  /** With the strategy normalised, the cap is the requested concurrency wherever that lies between 1 and 50. */
  lemma NormalizedCap(cfg: Config, raw: Option<int>, ids: seq<Id>, steps: seq<Step>, s: Job)
    requires cfg.concurrency == Some(NormalizeConcurrency(raw))
    requires NoDup(ids) && cfg.mode.Parallel? && Reaches(cfg, InitialJob(cfg, ids, []), steps, s)
    ensures Limit(cfg) == NormalizeConcurrency(raw) && ParallelRun(cfg, ids, steps, s)
    ensures |s.running| <= NormalizeConcurrency(raw)
    ensures raw.Some? && 1 <= raw.value <= 50 ==> |s.running| <= raw.value
  {
    CapAndOrder(cfg, ids, steps, s);
  }

  /** `completeJob` is only ever called when queue and running are both empty. */
  lemma CompletesWhenDrained(cfg: Config, ids: seq<Id>, steps: seq<Step>, s: Job, step: Step)
    requires ParallelRun(cfg, ids, steps, s) && Enabled(s, step)
    requires Next(cfg, s, step).completions > s.completions
    ensures Next(cfg, s, step).running == {} && Next(cfg, s, step).queue == []
  {
    ReachableGood(cfg, ids, steps, s);
    StepGoodHolds(cfg, ids, s, step);
  }

  /** 2 * |queue| + |running| never rises, and falls with every dispatch and every finish. */
  lemma MeasureFalls(cfg: Config, ids: seq<Id>, steps: seq<Step>, s: Job, step: Step)
    requires ParallelRun(cfg, ids, steps, s) && Enabled(s, step)
    ensures Measure(Next(cfg, s, step)) <= Measure(s)
    ensures Next(cfg, s, step).log != s.log || !(s.running <= Next(cfg, s, step).running)
            ==> Measure(Next(cfg, s, step)) < Measure(s)
  {
    ReachableGood(cfg, ids, steps, s);
    StepGoodHolds(cfg, ids, s, step);
    MeasureFallsBy(ids, s, Next(cfg, s, step));
  }

  lemma MeasureFallsBy(ids: seq<Id>, s: Job, s': Job)
    requires Progress(s, s') && s.log <= ids && s'.log <= ids
    ensures Measure(s') <= Measure(s)
    ensures s'.log != s.log || !(s.running <= s'.running) ==> Measure(s') < Measure(s)
  {
    if |s'.log| == |s.log| {
      assert s.log == ids[..|s.log|] == s'.log;
    }
    if !(s.running <= s'.running) {
      var x :| x in s.running && x !in s'.running;
      assert x in s.running - s'.running;
    }
  }

  /** A job never gets stuck: when no await is outstanding and nothing runs, an unaborted job has
      dispatched every target and has been completed. */
  lemma QuietMeansDone(cfg: Config, ids: seq<Id>, steps: seq<Step>, s: Job)
    requires ParallelRun(cfg, ids, steps, s)
    requires !s.aborted && s.pending == multiset{} && s.running == {}
    ensures s.log == ids && s.completions > 0 && !s.live
  {
    ReachableGood(cfg, ids, steps, s);
  }
}
