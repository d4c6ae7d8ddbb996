/** Every status in the database has its cause. An execution is RUNNING, SUCCESS, FAILED or SKIPPED, or about to
    be marked so, only because of a step that stands for it, in both modes and whatever the machines do. */
module JobCauses {
  import opened JobMachine

  /** The step that takes `s` to `s'` is what marks `e` with `st`: an agent's or the grace timer's report, a
      command that was not accepted, a dispatch to a machine that is or is not connected, or an abort. */
  ghost predicate Cause(s: Job, step: Step, s': Job, e: Id, st: Status) {
    match step
    case Report(x, reported) => x == e && st == reported
    case Resume(t, online, sent) =>
      || (t == Sending(e) && !sent && st == Failed)
      || (|s.log| <= |s'.log| && e in s'.log[|s.log|..] && st == if e in online then Running else Failed)
    case Commit(t) => t.Skipping? && e in t.ids && e in s.db && st == Skipped
    case UserAbort => false
  }

  ghost predicate CausedIn(cfg: Config, from: Job, steps: seq<Step>, e: Id, st: Status)
    decreases |steps|
  {
    && steps != [] && Enabled(from, steps[0])
    && (Cause(from, steps[0], Next(cfg, from, steps[0]), e, st)
        || CausedIn(cfg, Next(cfg, from, steps[0]), steps[1..], e, st))
  }

  ghost predicate Writing(s: Job, e: Id, st: Status) {
    exists next :: Write(e, st, next) in s.pending || Written(e, st, next) in s.pending
  }

  /** `e` has the status, or its write is under way. */
  ghost predicate Marked(s: Job, e: Id, st: Status) {
    (e in s.db && s.db[e] == st) || Writing(s, e, st)
  }

  // --- what a stretch that dispatches adds ---

  /** The write that the dispatch of `e` starts. */
  function FirstWrite(e: Id, online: set<Id>): Task {
    if e in online then Write(e, Running, ThenSend) else Write(e, Failed, ThenFinish)
  }

  ghost predicate Launch(s: Job, s': Job, online: set<Id>) {
    && s.log <= s'.log
    && s'.db == s.db
    && (forall t :: t in s.pending && IsStatusWrite(t) ==> t in s'.pending)
    && (forall t :: t in s'.pending && IsStatusWrite(t) ==>
          t in s.pending || (t.e in s'.log[|s.log|..] && t == FirstWrite(t.e, online)))
    && (forall e :: e in s'.log[|s.log|..] ==> FirstWrite(e, online) in s'.pending)
  }

  predicate IsStatusWrite(t: Task) { t.Write? || t.Written? }

  lemma LaunchTrans(s: Job, m: Job, s': Job, online: set<Id>)
    requires Launch(s, m, online) && Launch(m, s', online)
    ensures Launch(s, s', online)
  {
    assert s'.log[|s.log|..] == m.log[|s.log|..] + s'.log[|m.log|..];
    forall e | e in s'.log[|s.log|..] ensures FirstWrite(e, online) in s'.pending {
      assert e in m.log[|s.log|..] || e in s'.log[|m.log|..];
      assert IsStatusWrite(FirstWrite(e, online));
    }
  }

  lemma LaunchNone(s: Job, s': Job, online: set<Id>)
    requires s'.log == s.log && s'.db == s.db
    requires forall t :: IsStatusWrite(t) ==> (t in s.pending <==> t in s'.pending)
    ensures Launch(s, s', online)
  {
  }

  lemma DispatchLaunch(s: Job, e: Id, online: set<Id>)
    ensures Launch(s, Dispatch(s, e, online), online)
  {
    if s.live && !s.aborted {
      var s' := Dispatch(s, e, online);
      assert s'.log[|s.log|..] == [e];
      assert s'.pending == s.pending + multiset{FirstWrite(e, online)};
    }
  }

  lemma {:induction false} DispatchAllLaunch(s: Job, es: seq<Id>, online: set<Id>)
    ensures Launch(s, DispatchAll(s, es, online), online)
    decreases |es|
  {
    if es == [] {
      assert DispatchAll(s, es, online) == s;
    } else {
      DispatchLaunch(s, es[0], online);
      DispatchAllLaunch(Dispatch(s, es[0], online), es[1..], online);
      hide Launch, Dispatch;
      LaunchTrans(s, Dispatch(s, es[0], online), DispatchAll(s, es, online), online);
    }
  }

  lemma {:induction false} FillLoopLaunch(cfg: Config, s: Job, online: set<Id>)
    ensures Launch(s, FillLoop(cfg, s, online), online)
    decreases |s.queue|
  {
    if |s.running| < Limit(cfg) && s.queue != [] {
      RemoveFirstShorter(s.queue[1..], s.queue[0]);
      var s0 := s.(queue := s.queue[1..]);
      var s1 := Dispatch(s0, s.queue[0], online);
      LaunchNone(s, s0, online);
      DispatchLaunch(s0, s.queue[0], online);
      LaunchTrans(s, s0, s1, online);
      FillLoopLaunch(cfg, s1, online);
      hide Launch, Dispatch;
      LaunchTrans(s, s1, FillLoop(cfg, s, online), online);
    }
  }

  lemma FillLaunch(cfg: Config, s: Job, online: set<Id>)
    ensures Launch(s, Fill(cfg, s, online), online)
  {
    FillLoopLaunch(cfg, s, online);
    var s1 := FillLoop(cfg, s, online);
    CompleteLaunch(s1, online);
    hide Launch, FillLoop, Complete;
    LaunchNone(s, s, online);
    LaunchTrans(s, s1, Complete(s1), online);
  }

  lemma CompleteLaunch(s: Job, online: set<Id>)
    ensures Launch(s, Complete(s), online)
  {
    LaunchNone(s, Complete(s), online);
  }

  lemma RunWaveLaunch(s: Job, online: set<Id>)
    ensures Launch(s, RunWave(s, online), online)
  {
    DispatchAllLaunch(s, CurrentBatch(s), online);
    CompleteLaunch(s, online);
    LaunchNone(s, s, online);
  }

  lemma OnFinishedLaunch(cfg: Config, s: Job, e: Id, online: set<Id>)
    ensures Launch(s, OnFinished(cfg, s, e, online), online)
  {
    var s1 := s.(running := s.running - {e});
    FillLaunch(cfg, s1, online);
    LaunchNone(s, s1, online);
    LaunchTrans(s, s1, Fill(cfg, s1, online), online);
    LaunchNone(s, s, online);
    LaunchNone(s, Evaluate(s1, CurrentBatch(s1)), online);
    hide Launch, Fill, Evaluate;
  }

  lemma DecideLaunch(cfg: Config, s: Job, failures: nat, total: nat, online: set<Id>)
    ensures Launch(s, Decide(cfg, s, failures, total, online), online)
  {
    var s1 := s.(currentBatch := s.currentBatch + 1);
    AbortNone(s, online);
    LaunchNone(s, s1, online);
    LaunchNone(s1, Pause(s1), online);
    CompleteLaunch(s1, online);
    RunWaveLaunch(s1, online);
    var s' := Decide(cfg, s, failures, total, online);
    assert s' == Abort(s) || s' == Complete(s1) || s' == Pause(s1) || s' == RunWave(s1, online);
    hide Launch, Decide, Complete, Pause, RunWave, Abort;
    if s' != Abort(s) {
      LaunchTrans(s, s1, s', online);
    }
  }

  lemma AbortNone(s: Job, online: set<Id>)
    ensures Launch(s, Abort(s), online)
  {
    hide PendingIds;
    LaunchNone(s, Abort(s), online);
  }

  // --- one step ---

  /** What code that goes on behind an await marks, apart from a command that was not accepted. */
  lemma ResumeLaunch(cfg: Config, s: Job, t: Task, online: set<Id>, sent: bool)
    requires !NeedsCommit(t) && (t.Sending? ==> sent)
    ensures Launch(Take(s, t), ResumeTask(cfg, s, t, online, sent), online)
  {
    var s0 := Take(s, t);
    LaunchNone(s0, s0, online);
    match t
    case Starting =>
      RunWaveLaunch(s0, online);
      FillLaunch(cfg, s0, online);
      hide Launch, RunWave, Fill;
    case Written(e, _, next) => WrittenLaunch(cfg, s0, e, next, online);
    case Counted(failures, total) =>
      DecideLaunch(cfg, s0, failures, total, online);
      hide Launch, Decide;
    case WaveTimer =>
      RunWaveLaunch(s0, online);
      hide Launch, RunWave;
    case SkipDone => LaunchNone(s0, s0.(queue := []), online);
    case Completing => LaunchNone(s0, s0.(live := false), online);
    case Sending(_) =>
  }

  lemma WrittenLaunch(cfg: Config, s: Job, e: Id, next: Then, online: set<Id>)
    ensures Launch(s, AfterWrite(cfg, s, e, next, online), online)
  {
    match next
    case ThenSend => LaunchNone(s, Await(s.(inflight := s.inflight + {e}), Sending(e)), online);
    case ThenFinish => OnFinishedLaunch(cfg, s, e, online);
    case ThenFinishReported =>
      var s1 := s.(inflight := s.inflight - {e});
      LaunchNone(s, s1, online);
      OnFinishedLaunch(cfg, s1, e, online);
      hide Launch, OnFinished;
      LaunchTrans(s, s1, OnFinished(cfg, s1, e, online), online);
  }

  lemma LaunchMarks(s: Job, s0: Job, s': Job, online: set<Id>, e: Id, st: Status)
    requires Launch(s0, s', online) && s0 == s.(pending := s0.pending) && s0.pending <= s.pending
    ensures Marked(s', e, st) ==>
              Marked(s, e, st) || (e in s'.log[|s.log|..] && st == if e in online then Running else Failed)
    ensures e in s'.log[|s.log|..] && st == (if e in online then Running else Failed) ==> Marked(s', e, st)
  {
    if Writing(s', e, st) {
      var next :| Write(e, st, next) in s'.pending || Written(e, st, next) in s'.pending;
      assert IsStatusWrite(Write(e, st, next)) && IsStatusWrite(Written(e, st, next));
    }
    if e in s'.log[|s.log|..] {
      assert FirstWrite(e, online) in s'.pending;
    }
  }

  lemma ResumeMarks(cfg: Config, s: Job, step: Step, e: Id, st: Status)
    requires Enabled(s, step) && step.Resume? && (step.t.Sending? ==> step.sent)
    ensures Marked(Next(cfg, s, step), e, st) ==> Marked(s, e, st) || Cause(s, step, Next(cfg, s, step), e, st)
    ensures Cause(s, step, Next(cfg, s, step), e, st) ==> Marked(Next(cfg, s, step), e, st)
  {
    var s' := Next(cfg, s, step);
    ResumeLaunch(cfg, s, step.t, step.online, step.sent);
    LaunchLonger(Take(s, step.t), s', step.online);
    LaunchMarks(s, Take(s, step.t), s', step.online, e, st);
    hide Marked, Launch, ResumeTask;
  }

  lemma LaunchLonger(s: Job, s': Job, online: set<Id>)
    requires Launch(s, s', online)
    ensures |s.log| <= |s'.log|
  {
  }

  lemma UnsentMarks(cfg: Config, s: Job, step: Step, e: Id, st: Status)
    requires Enabled(s, step) && step.Resume? && step.t.Sending? && !step.sent
    ensures Marked(Next(cfg, s, step), e, st) ==> Marked(s, e, st) || Cause(s, step, Next(cfg, s, step), e, st)
    ensures Cause(s, step, Next(cfg, s, step), e, st) ==> Marked(Next(cfg, s, step), e, st)
  {
    var s' := Next(cfg, s, step);
    var w := Write(step.t.e, Failed, ThenFinish);
    assert s'.pending == s.pending - multiset{step.t} + multiset{w};
    assert s'.log == s.log && s'.log[|s.log|..] == [];
    AddedMarks(s, s', w, e, st);
  }

  /** Replacing an await that is no status write by one. */
  lemma AddedMarks(s: Job, s': Job, w: Task, e: Id, st: Status)
    requires w.Write? && s'.db == s.db && w in s'.pending
    requires forall t :: IsStatusWrite(t) && t != w ==> (t in s'.pending <==> t in s.pending)
    ensures Marked(s', e, st) <==> Marked(s, e, st) || (e == w.e && st == w.st)
  {
    if Writing(s, e, st) {
      var next :| Write(e, st, next) in s.pending || Written(e, st, next) in s.pending;
      assert Write(e, st, next) in s'.pending || Written(e, st, next) in s'.pending;
    }
    if Writing(s', e, st) {
      var next :| Write(e, st, next) in s'.pending || Written(e, st, next) in s'.pending;
      assert Write(e, st, next) in s.pending || Written(e, st, next) in s.pending || Write(e, st, next) == w;
    }
    if e == w.e && st == w.st {
      assert Write(e, st, w.next) in s'.pending;
    }
  }

  lemma ReportMarks(cfg: Config, s: Job, x: Id, reported: Status, e: Id, st: Status)
    requires Enabled(s, Report(x, reported))
    ensures Marked(Next(cfg, s, Report(x, reported)), e, st) <==> Marked(s, e, st) || (x == e && st == reported)
  {
    AddedMarks(s, Next(cfg, s, Report(x, reported)), Write(x, reported, ThenFinishReported), e, st);
  }

  lemma AbortMarks(s: Job, e: Id, st: Status)
    ensures Marked(Abort(s), e, st) <==> Marked(s, e, st)
  {
    hide PendingIds;
    assert forall t :: IsStatusWrite(t) ==> (t in Abort(s).pending <==> t in s.pending);
    SameMarks(s, Abort(s), e, st);
  }

  lemma SameMarks(s: Job, s': Job, e: Id, st: Status)
    requires s'.db == s.db && forall t :: IsStatusWrite(t) ==> (t in s'.pending <==> t in s.pending)
    ensures Marked(s', e, st) <==> Marked(s, e, st)
  {
    SameWriting(s, s', e, st);
  }

  lemma CommitMarks(s: Job, t: Task, e: Id, st: Status)
    requires t in s.pending && NeedsCommit(t)
    ensures Marked(CommitTask(s, t), e, st) ==> Marked(s, e, st) || (t.Skipping? && e in t.ids && e in s.db && st == Skipped)
    ensures t.Skipping? && e in t.ids && e in s.db && st == Skipped ==> Marked(CommitTask(s, t), e, st)
  {
    if t.Write? {
      CommitWriteMarks(s, t, e, st);
    } else {
      NoWriteCommitted(s, t);
      if t.Skipping? {
        SkipMarks(s, t, e, st);
      } else {
        SameMarks(s, CommitTask(s, t), e, st);
      }
      hide CommitTask, Writing;
    }
  }

  /** Counting rows or skipping executions writes no single status. */
  lemma NoWriteCommitted(s: Job, t: Task)
    requires t.Counting? || t.Skipping?
    ensures forall x :: IsStatusWrite(x) ==> (x in CommitTask(s, t).pending <==> x in s.pending)
    ensures t.Counting? ==> CommitTask(s, t).db == s.db
  {
    hide FailedRows, Rows, SkipRows;
  }

  lemma SkipMarks(s: Job, t: Task, e: Id, st: Status)
    requires t.Skipping? && t in s.pending
    ensures var s' := CommitTask(s, t);
            && s' == s.(db := SkipRows(s.db, t.ids), pending := s'.pending)
            && (Marked(s', e, st) <==> (e in s.db && (if e in t.ids then Skipped else s.db[e]) == st) || Writing(s, e, st))
  {
    NoWriteCommitted(s, t);
    SameWriting(s, CommitTask(s, t), e, st);
    hide Writing;
  }

  lemma SameWriting(s: Job, s': Job, e: Id, st: Status)
    requires forall t :: IsStatusWrite(t) ==> (t in s'.pending <==> t in s.pending)
    ensures Writing(s', e, st) <==> Writing(s, e, st)
  {
    if Writing(s, e, st) {
      var next :| Write(e, st, next) in s.pending || Written(e, st, next) in s.pending;
      assert Write(e, st, next) in s'.pending || Written(e, st, next) in s'.pending;
    }
    if Writing(s', e, st) {
      var next :| Write(e, st, next) in s'.pending || Written(e, st, next) in s'.pending;
      assert Write(e, st, next) in s.pending || Written(e, st, next) in s.pending;
    }
  }

  lemma CommitWriteMarks(s: Job, t: Task, e: Id, st: Status)
    requires t in s.pending && t.Write?
    ensures Marked(CommitTask(s, t), e, st) ==> Marked(s, e, st)
  {
    var s' := CommitTask(s, t);
    assert Write(t.e, t.st, t.next) in s.pending;
    assert Writing(s, t.e, t.st);
    if Writing(s', e, st) {
      var next :| Write(e, st, next) in s'.pending || Written(e, st, next) in s'.pending;
      assert Write(e, st, next) in s.pending || Written(e, st, next) in s.pending;
    }
  }

  /** A step marks an execution with a new status exactly if it is a cause of that status. */
  lemma StepMarks(cfg: Config, s: Job, step: Step, e: Id, st: Status)
    requires Enabled(s, step) && !Marked(s, e, st)
    ensures Marked(Next(cfg, s, step), e, st) <==> Cause(s, step, Next(cfg, s, step), e, st)
  {
    hide Marked, CommitTask, ResumeTask, Abort;
    match step
    case Commit(t) => CommitMarks(s, t, e, st);
    case Resume(t, _, sent) =>
      if t.Sending? && !sent {
        UnsentMarks(cfg, s, step, e, st);
      } else {
        ResumeMarks(cfg, s, step, e, st);
      }
    case Report(x, reported) => ReportMarks(cfg, s, x, reported, e, st);
    case UserAbort => AbortMarks(s, e, st);
  }

  // --- whole runs ---

  lemma {:induction false} RunMarks(cfg: Config, from: Job, steps: seq<Step>, s: Job, e: Id, st: Status)
    requires Reaches(cfg, from, steps, s) && Marked(s, e, st)
    ensures Marked(from, e, st) || CausedIn(cfg, from, steps, e, st)
    decreases |steps|
  {
    if steps == [] {
      assert s == from;
    } else {
      RunMarks(cfg, Next(cfg, from, steps[0]), steps[1..], s, e, st);
      if !Marked(from, e, st) {
        StepMarks(cfg, from, steps[0], e, st);
      }
    }
  }

  /** A status other than PENDING was caused by a step of the run. */
  lemma StatusHasCause(cfg: Config, ids: seq<Id>, waves: seq<seq<Id>>, steps: seq<Step>, s: Job, e: Id)
    requires Reaches(cfg, InitialJob(cfg, ids, waves), steps, s) && e in s.db && s.db[e] != Pending
    ensures CausedIn(cfg, InitialJob(cfg, ids, waves), steps, e, s.db[e])
  {
    RunMarks(cfg, InitialJob(cfg, ids, waves), steps, s, e, s.db[e]);
  }

  lemma {:induction false} CausedByReport(cfg: Config, from: Job, steps: seq<Step>, e: Id)
    requires CausedIn(cfg, from, steps, e, Success)
    ensures Report(e, Success) in steps
    decreases |steps|
  {
    if Cause(from, steps[0], Next(cfg, from, steps[0]), e, Success) {
      assert steps[0] == Report(e, Success);
    } else {
      CausedByReport(cfg, Next(cfg, from, steps[0]), steps[1..], e);
    }
  }

  /** Nothing but an agent's report makes an execution a success. */
  lemma SuccessWasReported(cfg: Config, ids: seq<Id>, waves: seq<seq<Id>>, steps: seq<Step>, s: Job, e: Id)
    requires Reaches(cfg, InitialJob(cfg, ids, waves), steps, s) && e in s.db && s.db[e] == Success
    ensures Report(e, Success) in steps
  {
    StatusHasCause(cfg, ids, waves, steps, s, e);
    CausedByReport(cfg, InitialJob(cfg, ids, waves), steps, e);
  }
}
