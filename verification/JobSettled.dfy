/** How a parallel job ends: with nothing outstanding and nothing running, every execution that was dispatched has
    its final status and every other one is SKIPPED, however often results are reported or the job is aborted. */
module JobSettled {
  import opened JobMachine
  import opened JobAbort
  import JobParallel

  predicate IsWrite(t: Task) { t.Write? || t.Written? }

  /** The RUNNING status comes first: as long as it is being written nothing else has happened to the execution. */
  ghost predicate FirstOk(s: Job, t: Task)
    requires IsWrite(t)
  {
    && s.pending[t] == 1 && t.st == Running
    && t.e in s.running && t.e !in s.inflight && Sending(t.e) !in s.pending
    && (forall u :: u in s.pending && IsWrite(u) && u.e == t.e ==> u == t)
  }

  ghost predicate LastOk(s: Job, t: Task)
    requires IsWrite(t)
  {
    && Final(t.st)
    && (t.Written? ==> t.e in s.db && Final(s.db[t.e]))
  }

  ghost predicate WritesOk(s: Job) {
    forall t :: t in s.pending && IsWrite(t) ==> if t.next.ThenSend? then FirstOk(s, t) else LastOk(s, t)
  }

  ghost predicate Settling(s: Job, e: Id) {
    e in s.running || (e in s.db && Final(s.db[e])) || Write(e, Failed, ThenFinish) in s.pending
  }

  ghost predicate Ending(s: Job) {
    WritesOk(s) && forall e :: e in s.log ==> Settling(s, e)
  }

  // --- dispatching ---

  /** Nothing yet refers to an execution that is still to be dispatched. */
  ghost predicate Untouched(s: Job, e: Id) {
    e !in s.inflight && Sending(e) !in s.pending && forall t :: t in s.pending && IsWrite(t) ==> t.e != e
  }

  lemma UndispatchedUntouched(ids: seq<Id>, s: Job, e: Id)
    requires General(ids, s) && e !in s.log
    ensures Untouched(s, e)
  {
    hide SkipOk, QueueOk, LaterWaves;
    forall t | t in s.pending && (IsWrite(t) || t.Sending?) ensures t.e != e {
      assert TaskOk(ids, s, t);
    }
  }

  lemma DispatchEnding(s: Job, e: Id, online: set<Id>)
    requires Ending(s) && Untouched(s, e)
    ensures Ending(Dispatch(s, e, online))
  {
    if s.live && !s.aborted {
      var w := if e in online then Write(e, Running, ThenSend) else Write(e, Failed, ThenFinish);
      var s' := Dispatch(s, e, online);
      assert s'.pending == s.pending + multiset{w};
      DispatchWrites(s, e, w, s');
      forall x | x in s'.log ensures Settling(s', x) {
        assert x == e || Settling(s, x);
      }
    }
  }

  lemma DispatchWrites(s: Job, e: Id, w: Task, s': Job)
    requires WritesOk(s) && Untouched(s, e)
    requires w == Write(e, Failed, ThenFinish) || (w == Write(e, Running, ThenSend) && e in s'.running)
    requires s'.pending == s.pending + multiset{w} && s'.inflight == s.inflight && s'.db == s.db && s.running <= s'.running
    ensures WritesOk(s')
  {
    forall t | t in s'.pending && IsWrite(t) ensures if t.next.ThenSend? then FirstOk(s', t) else LastOk(s', t) {
      if t != w {
        assert t in s.pending && t.e != e;
      }
    }
  }

  lemma {:induction false} FillLoopEnding(cfg: Config, ids: seq<Id>, s: Job, online: set<Id>)
    requires General(ids, s) && s.batches == [] && Ending(s) && s.live && !s.aborted
    ensures Ending(FillLoop(cfg, s, online))
    decreases |s.queue|
  {
    if |s.running| < Limit(cfg) && s.queue != [] {
      var e := s.queue[0];
      ShiftDispatch(s, online);
      DispatchKeeps(ids, s, e, online);
      UndispatchedUntouched(ids, s, e);
      DispatchEnding(s, e, online);
      assert Dispatch(s, e, online).batches == [] && Dispatch(s, e, online).live && !Dispatch(s, e, online).aborted;
      hide General, Ending, Dispatch;
      FillLoopEnding(cfg, ids, Dispatch(s, e, online), online);
    }
  }

  lemma FillEnding(cfg: Config, ids: seq<Id>, s: Job, online: set<Id>)
    requires General(ids, s) && s.batches == [] && Ending(s)
    ensures Ending(Fill(cfg, s, online))
  {
    if s.live && !s.aborted {
      FillLoopEnding(cfg, ids, s, online);
      CompleteEnding(FillLoop(cfg, s, online));
    }
  }

  lemma CompleteEnding(s: Job)
    requires Ending(s)
    ensures Ending(Complete(s))
  {
    OtherEnding(s, Complete(s));
  }

  /** A change that leaves the executions and their status writes alone. */
  lemma OtherEnding(s: Job, s': Job)
    requires Ending(s) && s'.log == s.log && s'.running == s.running && s'.inflight == s.inflight && s'.db == s.db
    requires forall t :: IsWrite(t) ==> s'.pending[t] == s.pending[t]
    requires forall e :: Sending(e) in s'.pending ==> Sending(e) in s.pending
    ensures Ending(s')
  {
    forall t | t in s'.pending && IsWrite(t) ensures if t.next.ThenSend? then FirstOk(s', t) else LastOk(s', t) {
      assert t in s.pending;
    }
    forall e | e in s'.log ensures Settling(s', e) {
      assert Settling(s, e);
    }
  }

  // --- the steps ---

  lemma CommitWriteEnding(s: Job, t: Task)
    requires Ending(s) && t in s.pending && t.Write? && t.e in s.db
    ensures Ending(CommitTask(s, t))
  {
    var s' := CommitTask(s, t);
    var u := Written(t.e, t.st, t.next);
    assert s'.pending == s.pending - multiset{t} + multiset{u};
    CommitWriteWrites(s, t, u, s');
    forall e | e in s'.log ensures Settling(s', e) {
      assert Settling(s, e);
      assert e == t.e ==> if t.next.ThenSend? then FirstOk(s, t) else LastOk(s, t);
    }
  }

  lemma CommitWriteWrites(s: Job, t: Task, u: Task, s': Job)
    requires WritesOk(s) && t in s.pending && t.Write? && t.e in s.db && u == Written(t.e, t.st, t.next)
    requires s' == s.(db := s.db[t.e := t.st], pending := s.pending - multiset{t} + multiset{u})
    ensures WritesOk(s')
  {
    assert if t.next.ThenSend? then FirstOk(s, t) else LastOk(s, t);
    forall x | x in s'.pending && IsWrite(x) ensures if x.next.ThenSend? then FirstOk(s', x) else LastOk(s', x) {
      if x != u {
        assert x in s.pending;
        assert if x.next.ThenSend? then FirstOk(s, x) else LastOk(s, x);
      }
    }
  }

  lemma CommitEnding(ids: seq<Id>, s: Job, t: Task)
    requires General(ids, s) && Ending(s) && t in s.pending && NeedsCommit(t)
    ensures Ending(CommitTask(s, t))
  {
    assert TaskOk(ids, s, t);
    match t
    case Write(e, _, _) => CommitWriteEnding(s, t);
    case Counting(_) => OtherEnding(s, CommitTask(s, t));
    case Skipping(es) => CommitSkipEnding(s, es);
  }

  lemma CommitSkipEnding(s: Job, es: set<Id>)
    requires Ending(s) && Skipping(es) in s.pending && es !! SetOf(s.log)
    requires forall t :: t in s.pending && IsWrite(t) ==> t.e in s.log
    ensures Ending(CommitTask(s, Skipping(es)))
  {
    var s' := CommitTask(s, Skipping(es));
    forall t | t in s'.pending && IsWrite(t) ensures if t.next.ThenSend? then FirstOk(s', t) else LastOk(s', t) {
      assert t in s.pending && t.e in SetOf(s.log);
    }
    forall e | e in s'.log ensures Settling(s', e) {
      assert Settling(s, e) && e in SetOf(s.log);
    }
  }

  lemma SentEnding(s: Job, t: Task, s': Job)
    requires Ending(s) && t in s.pending && t.Written? && t.next.ThenSend?
    requires s' == s.(inflight := s.inflight + {t.e}, pending := s.pending - multiset{t} + multiset{Sending(t.e)})
    ensures Ending(s')
  {
    assert FirstOk(s, t);
    forall x | x in s'.pending && IsWrite(x) ensures if x.next.ThenSend? then FirstOk(s', x) else LastOk(s', x) {
      assert x in s.pending && x != t && x.e != t.e;
    }
    forall e | e in s'.log ensures Settling(s', e) {
      assert Settling(s, e);
    }
  }

  /** An execution leaves `running` once its final status is stored. */
  lemma LeavingEnding(s: Job, t: Task, s': Job)
    requires Ending(s) && t in s.pending && t.Written? && !t.next.ThenSend?
    requires s' == s.(inflight := s'.inflight, pending := s.pending - multiset{t}, running := s'.running)
    requires s.running - {t.e} <= s'.running && s'.running <= s.running
    requires s'.inflight <= s.inflight
    ensures Ending(s')
  {
    assert LastOk(s, t);
    forall x | x in s'.pending && IsWrite(x) ensures if x.next.ThenSend? then FirstOk(s', x) else LastOk(s', x) {
      assert x in s.pending;
      assert if x.next.ThenSend? then FirstOk(s, x) else LastOk(s, x);
    }
    forall e | e in s'.log ensures Settling(s', e) {
      assert Settling(s, e);
    }
  }

  lemma FinishedEnding(cfg: Config, ids: seq<Id>, s: Job, t: Task, inflight: set<Id>, online: set<Id>)
    requires General(ids, s) && s.batches == [] && Ending(s) && cfg.mode.Parallel?
    requires t in s.pending && t.Written? && !t.next.ThenSend? && inflight <= s.inflight
    ensures Ending(OnFinished(cfg, Take(s, t).(inflight := inflight), t.e, online))
  {
    TakeKeeps(ids, s, t);
    var s0 := Take(s, t).(inflight := inflight);
    LeavingEnding(s, t, s0);
    if s.live {
      var s1 := s0.(running := s0.running - {t.e});
      LeavingEnding(s, t, s1);
      SetsKeep(ids, Take(s, t), s1.running, inflight);
      FillEnding(cfg, ids, s1, online);
    }
    hide General, Ending, Fill;
  }

  lemma WrittenEnding(cfg: Config, ids: seq<Id>, s: Job, t: Task, online: set<Id>)
    requires General(ids, s) && s.batches == [] && Ending(s) && cfg.mode.Parallel? && t in s.pending && t.Written?
    ensures Ending(AfterWrite(cfg, Take(s, t), t.e, t.next, online))
  {
    hide General, Ending, OnFinished;
    match t.next
    case ThenSend => SentEnding(s, t, AfterWrite(cfg, Take(s, t), t.e, t.next, online));
    case ThenFinish =>
      FinishedEnding(cfg, ids, s, t, s.inflight, online);
      assert Take(s, t).(inflight := s.inflight) == Take(s, t);
    case ThenFinishReported => FinishedEnding(cfg, ids, s, t, s.inflight - {t.e}, online);
  }

  lemma UnsentEnding(s: Job, e: Id, s': Job)
    requires Ending(s) && Sending(e) in s.pending
    requires s' == s.(running := s.running - {e},
                      pending := s.pending - multiset{Sending(e)} + multiset{Write(e, Failed, ThenFinish)})
    ensures Ending(s')
  {
    var w := Write(e, Failed, ThenFinish);
    forall x | x in s'.pending && IsWrite(x) ensures if x.next.ThenSend? then FirstOk(s', x) else LastOk(s', x) {
      if x != w {
        assert x in s.pending;
        assert if x.next.ThenSend? then FirstOk(s, x) else LastOk(s, x);
      }
    }
    forall x | x in s'.log ensures Settling(s', x) {
      assert Settling(s, x);
      assert w in s'.pending;
    }
  }

  lemma ReportEnding(s: Job, e: Id, st: Status)
    requires Ending(s) && e in s.inflight && Final(st)
    ensures Ending(Await(s, Write(e, st, ThenFinishReported)))
  {
    var w := Write(e, st, ThenFinishReported);
    var s' := Await(s, w);
    forall x | x in s'.pending && IsWrite(x) ensures if x.next.ThenSend? then FirstOk(s', x) else LastOk(s', x) {
      if x != w {
        assert x in s.pending;
        assert if x.next.ThenSend? then FirstOk(s, x) else LastOk(s, x);
      }
    }
    forall x | x in s'.log ensures Settling(s', x) {
      assert Settling(s, x);
    }
  }

  lemma SendingEnding(s: Job, e: Id, sent: bool)
    requires Ending(s) && Sending(e) in s.pending
    ensures Ending(AfterSend(Take(s, Sending(e)), e, sent))
  {
    if sent {
      OtherEnding(s, Take(s, Sending(e)));
    } else {
      hide Ending;
      UnsentEnding(s, e, AfterSend(Take(s, Sending(e)), e, sent));
    }
  }

  lemma StartEnding(cfg: Config, ids: seq<Id>, s: Job, online: set<Id>)
    requires General(ids, s) && s.batches == [] && Ending(s) && Starting in s.pending
    ensures Ending(Fill(cfg, Take(s, Starting), online))
  {
    TakeKeeps(ids, s, Starting);
    OtherEnding(s, Take(s, Starting));
    hide General, Ending, Fill;
    FillEnding(cfg, ids, Take(s, Starting), online);
  }

  lemma DoneEnding(s: Job)
    requires Ending(s)
    ensures Ending(Take(s, SkipDone).(queue := [])) && Ending(Take(s, Completing).(live := false))
  {
    OtherEnding(s, Take(s, SkipDone).(queue := []));
    OtherEnding(s, Take(s, Completing).(live := false));
  }

  lemma ResumeEnding(cfg: Config, ids: seq<Id>, s: Job, t: Task, online: set<Id>, sent: bool)
    requires General(ids, s) && s.batches == [] && Ending(s) && cfg.mode.Parallel? && t in s.pending && !NeedsCommit(t)
    requires !t.Counted? && !t.WaveTimer?
    ensures Ending(ResumeTask(cfg, s, t, online, sent))
  {
    hide General, Ending, AfterWrite, AfterSend, Fill;
    match t
    case Written(_, _, _) => WrittenEnding(cfg, ids, s, t, online);
    case Starting => StartEnding(cfg, ids, s, online);
    case Sending(e) => SendingEnding(s, e, sent);
    case SkipDone => DoneEnding(s);
    case Completing => DoneEnding(s);
  }

  lemma AbortEnding(s: Job)
    requires Ending(s)
    ensures Ending(Abort(s))
  {
    hide PendingIds, Ending;
    OtherEnding(s, Abort(s));
  }

  lemma StepEnding(cfg: Config, ids: seq<Id>, s: Job, step: Step)
    requires JobParallel.Good(cfg, ids, s) && Ending(s) && cfg.mode.Parallel? && Enabled(s, step)
    ensures Ending(Next(cfg, s, step))
  {
    hide Ending;
    match step
    case Commit(t) => CommitEnding(ids, s, t);
    case Resume(t, online, sent) => ResumeEnding(cfg, ids, s, t, online, sent);
    case Report(e, st) => ReportEnding(s, e, st);
    case UserAbort => AbortEnding(s);
  }

  // --- whole runs ---

  lemma {:induction false} RunEnding(cfg: Config, ids: seq<Id>, from: Job, steps: seq<Step>, s: Job)
    requires JobParallel.Good(cfg, ids, from) && Limit(cfg) >= 1 && cfg.mode.Parallel? && Ending(from)
    requires Reaches(cfg, from, steps, s)
    ensures Ending(s)
    decreases |steps|
  {
    if steps == [] {
      assert s == from;
    } else {
      JobParallel.StepGoodHolds(cfg, ids, from, steps[0]);
      StepEnding(cfg, ids, from, steps[0]);
      RunEnding(cfg, ids, Next(cfg, from, steps[0]), steps[1..], s);
    }
  }

  lemma ReachableEnding(cfg: Config, ids: seq<Id>, steps: seq<Step>, s: Job)
    requires JobParallel.ParallelRun(cfg, ids, steps, s)
    ensures Ending(s)
  {
    var s0 := InitialJob(cfg, ids, []);
    JobParallel.ReachableGood(cfg, ids, [], s0);
    RunEnding(cfg, ids, s0, steps, s);
  }

  /** With nothing outstanding and nothing running, exactly the dispatched executions have a final status; the
      others are SKIPPED, and there are others only if the job was aborted. */
  lemma QuietMeansSettled(cfg: Config, ids: seq<Id>, steps: seq<Step>, s: Job, e: Id)
    requires JobParallel.ParallelRun(cfg, ids, steps, s) && e in ids
    requires s.pending == multiset{} && s.running == {}
    ensures e in s.db
    ensures e in s.log ==> s.db[e] == Success || s.db[e] == Failed
    ensures e !in s.log ==> s.aborted && s.db[e] == Skipped
  {
    ReachableEnding(cfg, ids, steps, s);
    JobParallel.ReachableGood(cfg, ids, steps, s);
    assert e in s.log ==> Settling(s, e);
    if e !in s.log {
      if s.aborted {
        assert Skipping(Undispatched(ids, s)) !in s.pending;
      } else {
        JobParallel.QuietMeansDone(cfg, ids, steps, s);
      }
    }
  }
}
