/** Runs in which an execution finishes twice, as it does when a late result and the grace timer's callback
    both end it. Then no rolling job is safe. */
module JobTwice {
  import opened Chunks
  import opened JobMachine
  import opened JobRolling
  import opened JobOnce
  import opened JobSchedules
  import opened JobCounterexamples

  /** The two evaluations that two results of the only running execution lead to. */
  function Twice(t: Task): multiset<Task> { multiset{t} + multiset{t} }

  lemma ReportState(cfg: Config, s: Job, b: Id)
    requires b in s.inflight
    ensures Enabled(s, Report(b, Success))
    ensures Next(cfg, s, Report(b, Success)) == s.(pending := s.pending + multiset{Write(b, Success, ThenFinishReported)})
  {
  }

  lemma OneMore(cfg: Config, from: Job, steps: seq<Step>, s: Job, step: Step, next: Job) returns (steps': seq<Step>)
    requires Reaches(cfg, from, steps, s) && Enabled(s, step) && Next(cfg, s, step) == next
    ensures Reaches(cfg, from, steps', next)
  {
    ReachesSnoc(cfg, from, steps, s, step);
    steps' := steps + [step];
  }

  /** The result is reported twice, and written twice. */
  lemma ReportedTwice(cfg: Config, from: Job, steps: seq<Step>, s: Job, b: Id) returns (steps': seq<Step>, s': Job)
    requires Reaches(cfg, from, steps, s) && b in s.db && b in s.inflight && s.pending == multiset{}
    ensures Reaches(cfg, from, steps', s')
    ensures s' == s.(db := s.db[b := Success], pending := Twice(Written(b, Success, ThenFinishReported)))
  {
    hide Reaches;
    var w, d := Write(b, Success, ThenFinishReported), Written(b, Success, ThenFinishReported);
    var s1, s2 := s.(pending := multiset{w}), s.(pending := Twice(w));
    var s3 := s.(db := s.db[b := Success], pending := multiset{w} + multiset{d});
    s' := s.(db := s.db[b := Success], pending := Twice(d));
    ReportState(cfg, s, b);
    ReportState(cfg, s1, b);
    WriteState(cfg, s2, multiset{w}, w);
    assert s3.pending == multiset{d} + multiset{w};
    WriteState(cfg, s3, multiset{d}, w);
    assert s.db[b := Success][b := Success] == s.db[b := Success];
    hide Next;
    steps' := OneMore(cfg, from, steps, s, Report(b, Success), s1);
    steps' := OneMore(cfg, from, steps', s1, Report(b, Success), s2);
    steps' := OneMore(cfg, from, steps', s2, Step.Commit(w), s3);
    steps' := OneMore(cfg, from, steps', s3, Step.Commit(w), s');
  }

  /** Both finishes evaluate the wave, and both evaluations are answered. */
  lemma EvaluatedTwice(cfg: Config, from: Job, steps: seq<Step>, s: Job, b: Id) returns (steps': seq<Step>, s': Job)
    requires Reaches(cfg, from, steps, s) && cfg.mode.Rolling? && s.live && !s.aborted
    requires s.running == {b} && s.inflight == {b} && s.pending == Twice(Written(b, Success, ThenFinishReported))
    ensures Reaches(cfg, from, steps', s')
    ensures s' == s.(running := {}, inflight := {}, pending := Twice(Evaluation(s.db, CurrentBatch(s))))
  {
    hide Reaches;
    var d, c, e := Written(b, Success, ThenFinishReported), Counting(CurrentBatch(s)), Evaluation(s.db, CurrentBatch(s));
    var s1 := s.(running := {}, inflight := {}, pending := multiset{d} + multiset{c});
    var s2 := s1.(pending := Twice(c));
    var s3 := s1.(pending := multiset{c} + multiset{e});
    s' := s1.(pending := Twice(e));
    FinishState(cfg, s, multiset{d}, d);
    assert s1.pending == multiset{c} + multiset{d} && CurrentBatch(s1) == CurrentBatch(s);
    FinishState(cfg, s1, multiset{c}, d);
    assert CurrentBatch(s2) == CurrentBatch(s);
    CountState(cfg, s2, multiset{c});
    assert s3.pending == multiset{e} + multiset{c} && CurrentBatch(s3) == CurrentBatch(s);
    CountState(cfg, s3, multiset{e});
    hide Next;
    steps' := OneMore(cfg, from, steps, s, Resume(d, {}, true), s1);
    steps' := OneMore(cfg, from, steps', s1, Resume(d, {}, true), s2);
    steps' := OneMore(cfg, from, steps', s2, Step.Commit(c), s3);
    steps' := OneMore(cfg, from, steps', s3, Step.Commit(c), s');
  }

  /** A passed evaluation moves the job on by one wave. */
  lemma MovedOn(cfg: Config, from: Job, steps: seq<Step>, s: Job, total: nat) returns (steps': seq<Step>, s': Job)
    requires Reaches(cfg, from, steps, s) && Passes(cfg, 0, total) && s.live && !s.aborted && Counted(0, total) in s.pending
    ensures Reaches(cfg, from, steps', s')
    ensures s'.currentBatch == s.currentBatch + 1 && s'.db == s.db && s'.live && !s'.aborted
    ensures s.pending - multiset{Counted(0, total)} <= s'.pending
  {
    hide Reaches, OverThreshold;
    var c := Counted(0, total);
    s' := Decide(cfg, Take(s, c), 0, total, {});
    DecidedState(cfg, Take(s, c), total);
    steps' := OneMore(cfg, from, steps, s, Resume(c, {}, true), s');
  }

  /** An execution alone in the first wave is sent. */
  lemma FirstIsSent(cfg: Config, ids: seq<Id>, waves: seq<seq<Id>>) returns (steps: seq<Step>, s: Job)
    requires RollingJob(cfg, ids, waves) && AllSingle(waves)
    ensures JobRun(cfg, ids, waves, steps, s)
    ensures var b := waves[0][0];
            && s.live && !s.aborted && s.running == {b} && s.inflight == {b} && s.pending == multiset{}
            && s.currentBatch == 0 && s.batches == waves && b in s.db
    ensures |waves| > 1 ==> waves[1][0] in s.db && s.db[waves[1][0]] == Pending
  {
    hide JobRun, Launches;
    var b := waves[0][0];
    WaveFacts(ids, waves, 0);
    var steps0, s0, t, base := ReachWave(cfg, ids, waves, 0);
    assert waves[0] == [b] + [] && CurrentBatch(base) == waves[0];
    var steps1, s1 := LaunchFirst(cfg, ids, waves, steps0, s0, t, base, b, []);
    assert s1.pending == multiset{} + multiset{Write(b, Running, ThenSend)};
    steps, s := SendSucceeds(cfg, ids, waves, steps1, s1, multiset{}, b);
    if |waves| > 1 {
      assert waves[1][0] in waves[1];
    }
  }

  /** With waves of one execution, two results of the first make the job go beyond its second wave while that is
      not settled; a job with one wave goes beyond its end. */
  lemma TwiceBreaksBarrier(cfg: Config, ids: seq<Id>, waves: seq<seq<Id>>)
    requires RollingJob(cfg, ids, waves) && AllSingle(waves)
    ensures exists steps: seq<Step>, s: Job ::
              Reaches(cfg, InitialJob(cfg, ids, waves), steps, s) && !BarrierHolds(waves, s)
              && s.currentBatch == 2 && (|waves| > 1 ==> waves[1][0] in s.db && s.db[waves[1][0]] == Pending)
  {
    hide Reaches, JobRun, OverThreshold;
    var from, b := InitialJob(cfg, ids, waves), waves[0][0];
    var steps0, s0 := FirstIsSent(cfg, ids, waves);
    RunReaches(cfg, ids, waves, steps0, s0);
    var steps1, s1 := ReportedTwice(cfg, from, steps0, s0, b);
    var steps2, s2 := EvaluatedTwice(cfg, from, steps1, s1, b);
    var total := |Rows(s1.db, CurrentBatch(s1))|;
    assert CurrentBatch(s1) == [b];
    NoneFailed(s1.db, CurrentBatch(s1));
    NoFailuresPass(cfg, total);
    var steps3, s3 := MovedOn(cfg, from, steps2, s2, total);
    assert Counted(0, total) in s2.pending - multiset{Counted(0, total)};
    var steps4, s := MovedOn(cfg, from, steps3, s3, total);
    if |waves| > 1 {
      WaveFacts(ids, waves, 1);
      assert waves[1][0] in waves[1] && !Final(s.db[waves[1][0]]);
    }
    assert !BarrierHolds(waves, s);
  }

  lemma RunReaches(cfg: Config, ids: seq<Id>, waves: seq<seq<Id>>, steps: seq<Step>, s: Job)
    requires JobRun(cfg, ids, waves, steps, s)
    ensures Reaches(cfg, InitialJob(cfg, ids, waves), steps, s)
  {
    OnceReaches(cfg, InitialJob(cfg, ids, waves), steps, s);
  }

  /** No rolling job keeps its barrier in all runs, if executions may finish twice. */
  lemma NeverSafe(cfg: Config, ids: seq<Id>, waves: seq<seq<Id>>)
    requires RollingJob(cfg, ids, waves)
    ensures exists steps: seq<Step>, s: Job :: Reaches(cfg, InitialJob(cfg, ids, waves), steps, s) && !BarrierHolds(waves, s)
  {
    hide Reaches, JobRun, BarrierHolds;
    if AllSingle(waves) {
      TwiceBreaksBarrier(cfg, ids, waves);
    } else {
      OfflineBreaksBarrier(cfg, ids, waves);
      var steps: seq<Step>, s: Job :| JobRun(cfg, ids, waves, steps, s) && !BarrierHolds(waves, s);
      RunReaches(cfg, ids, waves, steps, s);
    }
  }
}
