/** No rolling job ever gets stuck, whatever the machines do and however often results are reported. */
module JobProgress {
  import opened JobMachine
  import opened JobRolling

  /** A status write after which an execution counts as finished. */
  predicate Finishing(t: Task) { IsWrite(t) && !t.next.ThenSend? }

  ghost predicate HasFinishing(s: Job) { exists t :: t in s.pending && Finishing(t) }

  /** Something outstanding will move the job on, unless it is over. */
  ghost predicate Awake(s: Job) {
    s.aborted || s.completions > 0 || HasControl(s) || s.running != {} || HasFinishing(s)
  }

  ghost predicate Lively(s: Job) {
    && Awake(s)
    && (forall k :: 0 <= k < |s.batches| ==> s.batches[k] != [])
    && (!s.live || Completing in s.pending <==> s.completions > 0)
  }

  lemma {:induction false} DispatchAllGrows(s: Job, es: seq<Id>, online: set<Id>)
    ensures var s' := DispatchAll(s, es, online);
            && s.pending <= s'.pending && s.running <= s'.running
            && s'.live == s.live && s'.aborted == s.aborted && s'.completions == s.completions && s'.batches == s.batches
            && (Completing in s'.pending <==> Completing in s.pending)
    decreases |es|
  {
    if es == [] {
      assert DispatchAll(s, es, online) == s;
    } else {
      DispatchAllGrows(Dispatch(s, es[0], online), es[1..], online);
    }
  }

  lemma RunWaveLively(s: Job, online: set<Id>)
    requires forall k :: 0 <= k < |s.batches| ==> s.batches[k] != []
    requires !s.live || Completing in s.pending <==> s.completions > 0
    ensures Lively(RunWave(s, online))
  {
    var wave := CurrentBatch(s);
    if s.live && !s.aborted && wave != [] {
      var s1, s' := Dispatch(s, wave[0], online), RunWave(s, online);
      DispatchAllGrows(s1, wave[1..], online);
      if wave[0] !in online {
        var t := Write(wave[0], Failed, ThenFinish);
        assert t in s1.pending;
        assert t in s'.pending && Finishing(t);
      }
    }
  }

  lemma CommitLively(s: Job, t: Task)
    requires Lively(s) && t in s.pending && NeedsCommit(t)
    ensures Lively(CommitTask(s, t))
  {
    if HasControl(s) {
      CommitControl(s, t);
    }
    if HasFinishing(s) {
      CommitFinishing(s, t);
    }
    hide HasControl, HasFinishing;
    assert Completing in CommitTask(s, t).pending <==> Completing in s.pending;
  }

  lemma CommitControl(s: Job, t: Task)
    requires t in s.pending && NeedsCommit(t) && HasControl(s)
    ensures HasControl(CommitTask(s, t))
  {
    var c :| c in s.pending && IsControl(c);
    var c' := if c == t then Counted(|FailedRows(s.db, t.batch)|, |Rows(s.db, t.batch)|) else c;
    assert c' in CommitTask(s, t).pending && IsControl(c');
  }

  lemma CommitFinishing(s: Job, t: Task)
    requires t in s.pending && NeedsCommit(t) && HasFinishing(s)
    ensures HasFinishing(CommitTask(s, t))
  {
    var f :| f in s.pending && Finishing(f);
    var f' := if f == t then Written(t.e, t.st, t.next) else f;
    assert f' in CommitTask(s, t).pending && Finishing(f');
  }

  lemma OnFinishedLively(cfg: Config, s: Job, e: Id, online: set<Id>)
    requires cfg.mode.Rolling? && forall k :: 0 <= k < |s.batches| ==> s.batches[k] != []
    requires !s.live || Completing in s.pending <==> s.completions > 0
    ensures Lively(OnFinished(cfg, s, e, online))
  {
    var s' := OnFinished(cfg, s, e, online);
    var c := Counting(CurrentBatch(s.(running := s.running - {e})));
    assert c in s'.pending ==> IsControl(c) && HasControl(s');
  }

  /** Taking an await that neither controls waves nor finishes an execution. */
  lemma OtherLively(s: Job, s': Job, t: Task)
    requires Lively(s) && !IsControl(t) && !Finishing(t)
    requires forall x :: x in s.pending && x != t ==> x in s'.pending
    requires s.running <= s'.running && s'.aborted == s.aborted && s'.completions == s.completions && s'.batches == s.batches
    requires !s'.live || Completing in s'.pending <==> s'.completions > 0
    ensures Lively(s')
  {
    if HasControl(s) {
      var c :| c in s.pending && IsControl(c);
      assert c in s'.pending;
    }
    if HasFinishing(s) {
      var f :| f in s.pending && Finishing(f);
      assert f in s'.pending;
    }
  }

  lemma AddedLively(s': Job, t: Task)
    requires t in s'.pending && (IsControl(t) || Finishing(t))
    ensures Awake(s')
  {
    assert HasControl(s') || HasFinishing(s');
  }

  lemma DecideLively(cfg: Config, s: Job, failures: nat, total: nat, online: set<Id>)
    requires forall k :: 0 <= k < |s.batches| ==> s.batches[k] != []
    requires !s.live || Completing in s.pending <==> s.completions > 0
    ensures Lively(Decide(cfg, s, failures, total, online))
  {
    hide OverThreshold, RunWave;
    var s1 := s.(currentBatch := s.currentBatch + 1);
    RunWaveLively(s1, online);
    if !OverThreshold(cfg, failures, total) && s1.currentBatch < |s1.batches| && cfg.waits {
      AddedLively(Pause(s1), WaveTimer);
    }
  }

  lemma ResumeLively(cfg: Config, s: Job, t: Task, online: set<Id>, sent: bool)
    requires cfg.mode.Rolling? && Lively(s) && t in s.pending && !NeedsCommit(t)
    ensures Lively(ResumeTask(cfg, s, t, online, sent))
  {
    hide RunWave, Decide, OnFinished, Lively;
    var s0 := Take(s, t);
    TakenLively(s, t);
    match t
    case Starting => RunWaveLively(s0, online);
    case WaveTimer => RunWaveLively(s0, online);
    case Counted(failures, total) => DecideLively(cfg, s0, failures, total, online);
    case Written(e, _, next) => WrittenLively(cfg, s, t, online);
    case Sending(e) => SendingLively(s, e, sent);
    case SkipDone => OtherLively(s, s0.(queue := []), t);
    case Completing => OtherLively(s, s0.(live := false), t);
  }

  lemma TakenLively(s: Job, t: Task)
    requires Lively(s)
    ensures forall k :: 0 <= k < |s.batches| ==> s.batches[k] != []
    ensures t != Completing ==> (!s.live || Completing in Take(s, t).pending <==> s.completions > 0)
    ensures Completing in s.pending ==> s.completions > 0
    ensures forall x :: x in s.pending && x != t ==> x in Take(s, t).pending
  {
  }

  lemma WrittenLively(cfg: Config, s: Job, t: Task, online: set<Id>)
    requires cfg.mode.Rolling? && Lively(s) && t in s.pending && t.Written?
    ensures Lively(AfterWrite(cfg, Take(s, t), t.e, t.next, online))
  {
    hide OnFinished, Lively;
    TakenLively(s, t);
    var s0 := Take(s, t);
    match t.next
    case ThenSend =>
      var s' := Await(s0.(inflight := s0.inflight + {t.e}), Sending(t.e));
      assert forall x :: x in s0.pending ==> x in s'.pending;
      OtherLively(s, s', t);
    case ThenFinish => OnFinishedLively(cfg, s0, t.e, online);
    case ThenFinishReported => OnFinishedLively(cfg, s0.(inflight := s0.inflight - {t.e}), t.e, online);
  }

  lemma SendingLively(s: Job, e: Id, sent: bool)
    requires Lively(s) && Sending(e) in s.pending
    ensures Lively(AfterSend(Take(s, Sending(e)), e, sent))
  {
    TakenLively(s, Sending(e));
    if sent {
      OtherLively(s, Take(s, Sending(e)), Sending(e));
    } else {
      AddedLively(AfterSend(Take(s, Sending(e)), e, sent), Write(e, Failed, ThenFinish));
    }
  }

  lemma StepLively(cfg: Config, s: Job, step: Step)
    requires cfg.mode.Rolling? && Lively(s) && Enabled(s, step)
    ensures Lively(Next(cfg, s, step))
  {
    match step
    case Commit(t) => CommitLively(s, t);
    case Resume(t, online, sent) => ResumeLively(cfg, s, t, online, sent);
    case Report(e, st) => AddedLively(Next(cfg, s, step), Write(e, st, ThenFinishReported));
    case UserAbort => assert Completing in Abort(s).pending <==> Completing in s.pending;
  }

  lemma {:induction false} RunLively(cfg: Config, from: Job, steps: seq<Step>, s: Job)
    requires cfg.mode.Rolling? && Lively(from) && Reaches(cfg, from, steps, s)
    ensures Lively(s)
    decreases |steps|
  {
    if steps == [] {
      assert s == from;
    } else {
      StepLively(cfg, from, steps[0]);
      RunLively(cfg, Next(cfg, from, steps[0]), steps[1..], s);
    }
  }

  /** With nothing outstanding and nothing running, a rolling job was aborted or it is over. */
  lemma NeverStuck(cfg: Config, ids: seq<Id>, waves: seq<seq<Id>>, steps: seq<Step>, s: Job)
    requires cfg.mode.Rolling? && Startable(cfg, ids, waves) && Reaches(cfg, InitialJob(cfg, ids, waves), steps, s)
    requires s.pending == multiset{} && s.running == {}
    ensures s.aborted || (s.completions > 0 && !s.live)
  {
    AddedLively(InitialJob(cfg, ids, waves), Starting);
    RunLively(cfg, InitialJob(cfg, ids, waves), steps, s);
  }
}
