/** Why the rolling theorems need their environment assumption. An offline machine leaves no trace in
    `running`, so a wave of two or more can be evaluated before all its executions are settled, and once
    for each of them. In all the runs below each execution finishes once. */
module JobCounterexamples {
  import opened Chunks
  import opened JobMachine
  import opened JobAbort
  import opened JobRolling
  import opened JobOnce
  import opened JobSchedules

  // --- up to the first wave of two or more ---

  lemma {:induction false} FirstBig(waves: seq<seq<Id>>, n: nat) returns (k: nat)
    requires n < |waves| && |waves[n]| != 1
    ensures k <= n && |waves[k]| != 1 && forall j :: 0 <= j < k ==> |waves[j]| == 1
  {
    if forall j :: 0 <= j < n ==> |waves[j]| == 1 {
      k := n;
    } else {
      var j :| 0 <= j < n && |waves[j]| != 1;
      k := FirstBig(waves, j);
    }
  }

  lemma WaveFacts(ids: seq<Id>, waves: seq<seq<Id>>, k: nat)
    requires NoDup(ids) && Flatten(waves) == ids && k < |waves|
    ensures NoDup(waves[k])
    ensures forall e :: e in waves[k] ==> e in ids && e !in Flatten(waves[..k])
    ensures forall j, e :: 0 <= j < |waves| && j != k && e in waves[j] ==> e !in waves[k]
    ensures Flatten(waves[..k + 1]) == Flatten(waves[..k]) + waves[k]
  {
    FlattenTake(waves, k);
    FlattenSplit(waves, k + 1);
    NoDupSplit(Flatten(waves[..k + 1]), Flatten(waves[k + 1..]));
    NoDupSplit(Flatten(waves[..k]), waves[k]);
    forall j, e | 0 <= j < |waves| && j != k && e in waves[j] ensures e !in waves[k] {
      if e in waves[k] {
        DistinctWaves(waves, j, k, e);
      }
    }
  }

  /** Nothing has failed so far, and the waves from `k` on are untouched. */
  ghost predicate Untouched(waves: seq<seq<Id>>, s: Job, k: nat) {
    && (forall e :: e in s.db ==> s.db[e] != Failed)
    && (forall j, e :: k <= j < |waves| && e in waves[j] ==> e in s.db && s.db[e] == Pending)
  }

  /** Waves of one execution can all succeed, one after the other. */
  lemma {:induction false} ReachWave(cfg: Config, ids: seq<Id>, waves: seq<seq<Id>>, k: nat)
    returns (steps: seq<Step>, s': Job, t: Task, s: Job)
    requires RollingJob(cfg, ids, waves) && k < |waves| && forall j :: 0 <= j < k ==> |waves[j]| == 1
    ensures JobRun(cfg, ids, waves, steps, s') && Launches(cfg, s', t, s)
    ensures Calm(ids, waves, s) && s.currentBatch == k && s.pending == Writes([])
    ensures s.log == Flatten(waves[..k]) && Untouched(waves, s, k)
    decreases k
  {
    if k == 0 {
      steps, s', t := [], InitialJob(cfg, ids, waves), Starting;
      s := s'.(pending := multiset{});
      StartLaunches(cfg, ids, waves);
      UntouchedStart(cfg, ids, waves);
    } else {
      hide OnceRun, Launches, Writes, OverThreshold, Untouched;
      var steps1, s1, t1, s0 := ReachWave(cfg, ids, waves, k - 1);
      WaveFacts(ids, waves, k - 1);
      var steps2, q := WaveSucceeds(cfg, ids, waves, steps1, s1, t1, s0, []);
      var wave := waves[k - 1];
      NoFailuresPass(cfg, |Rows(q.db, wave)|);
      steps, s', t := NextLaunch(cfg, ids, waves, steps2, q, 0, |Rows(q.db, wave)|);
      s := Advanced(cfg, q);
      assert [] + wave[1..] == [];
      SucceededRows(ids, waves, k - 1, s0, q);
      SameRows(waves, q, s, k);
    }
  }

  lemma UntouchedStart(cfg: Config, ids: seq<Id>, waves: seq<seq<Id>>)
    requires NoDup(ids) && Flatten(waves) == ids
    ensures Untouched(waves, InitialJob(cfg, ids, waves).(pending := multiset{}), 0)
  {
    forall j, e | 0 <= j < |waves| && e in waves[j] ensures e in ids {
      WaveFacts(ids, waves, j);
    }
  }

  lemma SameRows(waves: seq<seq<Id>>, q: Job, s: Job, k: nat)
    requires Untouched(waves, q, k) && s.db == q.db
    ensures Untouched(waves, s, k)
  {
  }

  /** In the first wave of two or more, the first execution succeeds while the machines of the others are
      offline; their failures are not written yet when the wave is evaluated. */
  lemma BigWavePasses(cfg: Config, ids: seq<Id>, waves: seq<seq<Id>>, k: nat) returns (steps: seq<Step>, q: Job, total: nat)
    requires RollingJob(cfg, ids, waves) && k < |waves| && |waves[k]| >= 2 && forall j :: 0 <= j < k ==> |waves[j]| == 1
    ensures JobRun(cfg, ids, waves, steps, Await(q, Counted(0, total)))
    ensures Calm(ids, waves, q) && q.currentBatch == k && q.pending == Writes(waves[k][1..])
    ensures q.log == Flatten(waves[..k + 1]) && Untouched(waves, q, k + 1)
    ensures forall e :: e in waves[k][1..] ==> e in q.db && q.db[e] == Pending
  {
    hide OnceRun, Launches, Writes;
    var steps1, s1, t, s := ReachWave(cfg, ids, waves, k);
    WaveFacts(ids, waves, k);
    WritesIff([], Completing);
    steps, q := WaveSucceeds(cfg, ids, waves, steps1, s1, t, s, []);
    total := |Rows(q.db, waves[k])|;
    assert [] + waves[k][1..] == waves[k][1..];
    SucceededRows(ids, waves, k, s, q);
  }

  lemma SucceededRows(ids: seq<Id>, waves: seq<seq<Id>>, k: nat, s: Job, q: Job)
    requires NoDup(ids) && Flatten(waves) == ids && k < |waves| && waves[k] != []
    requires Untouched(waves, s, k) && q.db == s.db[waves[k][0] := Success]
    ensures Untouched(waves, q, k + 1)
    ensures forall e :: e in waves[k][1..] ==> e in q.db && q.db[e] == Pending
  {
    WaveFacts(ids, waves, k);
    hide Flatten;
    forall j, e | k + 1 <= j < |waves| && e in waves[j] ensures e in q.db && q.db[e] == Pending {
      assert e !in waves[k];
    }
    forall e | e in waves[k][1..] ensures e in q.db && q.db[e] == Pending {
      var i :| 0 <= i < |waves[k][1..]| && waves[k][1..][i] == e;
      assert waves[k][i + 1] == e;
    }
  }

  /** After a passed evaluation the job stands at the next wave; the database is as before. */
  lemma PassedOn(cfg: Config, ids: seq<Id>, waves: seq<seq<Id>>, steps: seq<Step>, q: Job, total: nat)
    returns (steps': seq<Step>, s: Job)
    requires JobRun(cfg, ids, waves, steps, Await(q, Counted(0, total))) && Passes(cfg, 0, total) && q.live && !q.aborted
    ensures JobRun(cfg, ids, waves, steps', s) && s.currentBatch == q.currentBatch + 1 && s.db == q.db && !s.aborted
    ensures q.currentBatch + 1 >= |q.batches| || cfg.waits ==> s.log == q.log
  {
    hide OnceRun, OverThreshold;
    var step := Resume(Counted(0, total), {}, true);
    DecidedState(cfg, q, total);
    hide Decide;
    OnceSnoc(cfg, InitialJob(cfg, ids, waves), steps, Await(q, Counted(0, total)), step);
    steps', s := steps + [step], Next(cfg, Await(q, Counted(0, total)), step);
    assert Take(Await(q, Counted(0, total)), Counted(0, total)) == q;
  }

  lemma DecidedState(cfg: Config, q: Job, total: nat)
    requires Passes(cfg, 0, total) && q.live && !q.aborted
    ensures var s := Decide(cfg, q, 0, total, {});
            && s.currentBatch == q.currentBatch + 1 && s.db == q.db && s.live && !s.aborted && q.pending <= s.pending
            && (q.currentBatch + 1 >= |q.batches| || cfg.waits ==> s.log == q.log)
  {
    hide OverThreshold;
    var next := q.(currentBatch := q.currentBatch + 1);
    DispatchOffline(next, CurrentBatch(next), {});
  }

  /** The barrier breaks in every job with a wave of two or more: the job goes beyond that wave while one of
      its executions has no final status. */
  lemma OfflineBreaksBarrier(cfg: Config, ids: seq<Id>, waves: seq<seq<Id>>)
    requires RollingJob(cfg, ids, waves) && !AllSingle(waves)
    ensures exists steps: seq<Step>, s: Job :: JobRun(cfg, ids, waves, steps, s) && !BarrierHolds(waves, s)
  {
    hide OnceRun, OverThreshold;
    var n :| 0 <= n < |waves| && |waves[n]| != 1;
    var k := FirstBig(waves, n);
    var steps, q, total := BigWavePasses(cfg, ids, waves, k);
    NoFailuresPass(cfg, total);
    var steps', s := PassedOn(cfg, ids, waves, steps, q, total);
    var e := waves[k][1];
    assert e in waves[k][1..];
    assert k < s.currentBatch && e in waves[k] && !Final(s.db[e]);
    assert !BarrierHolds(waves, s);
  }

  // --- a wave that is passed over ---

  /** Every wave below the current one has been dispatched. */
  predicate WavesRun(waves: seq<seq<Id>>, s: Job) {
    forall j, e :: 0 <= j < s.currentBatch && j < |waves| && e in waves[j] ==> e in s.log
  }

  /** With a pause between waves, the wave after one of two or more can be passed over. */
  lemma OfflineDropsWave(cfg: Config, ids: seq<Id>, waves: seq<seq<Id>>, n: nat)
    requires RollingJob(cfg, ids, waves) && cfg.waits && n + 1 < |waves| && |waves[n]| != 1
    ensures exists steps: seq<Step>, s: Job :: JobRun(cfg, ids, waves, steps, s) && !s.aborted && !WavesRun(waves, s)
  {
    hide OnceRun, OverThreshold;
    var k := FirstBig(waves, n);
    var steps1, q, total := BigWavePasses(cfg, ids, waves, k);
    NoFailuresPass(cfg, total);
    WaveFacts(ids, waves, k + 1);
    assert waves[k][1..][0] == waves[k][1] && waves[k][1] in waves[k];
    var steps2, q2, total2 := ExtraEvaluation(cfg, ids, waves, steps1, q, total, waves[k][1..]);
    NoFailuresPass(cfg, total2);
    var steps3, s := PassedOn(cfg, ids, waves, steps2, q2, total2);
    var e := waves[k + 1][0];
    assert e in waves[k + 1] && e !in s.log;
    assert !WavesRun(waves, s);
  }

  /** During the pause a leftover failure evaluates the next wave, although it is not dispatched yet. */
  lemma ExtraEvaluation(cfg: Config, ids: seq<Id>, waves: seq<seq<Id>>, steps: seq<Step>, q: Job, total: nat, left: seq<Id>)
    returns (steps': seq<Step>, q': Job, total': nat)
    requires cfg.mode.Rolling? && cfg.waits && JobRun(cfg, ids, waves, steps, Await(q, Counted(0, total))) && Passes(cfg, 0, total)
    requires Calm(ids, waves, q) && q.currentBatch + 1 < |waves| && q.pending == Writes(left) && left != [] && left[0] in q.db
    requires Untouched(waves, q, q.currentBatch + 1) && left[0] !in waves[q.currentBatch + 1]
    ensures JobRun(cfg, ids, waves, steps', Await(q', Counted(0, total')))
    ensures q'.live && !q'.aborted && q'.log == q.log && q'.batches == q.batches && q'.currentBatch == q.currentBatch + 1
  {
    hide OnceRun, OverThreshold;
    var c, next := Counted(0, total), q.(currentBatch := q.currentBatch + 1);
    PassedState(cfg, q, 0, total);
    OnceSnoc(cfg, InitialJob(cfg, ids, waves), steps, Await(q, c), Resume(c, {}, true));
    var s := Pause(next);
    var p := Writes(left[1..]) + multiset{WaveTimer};
    assert s.pending == p + multiset{Write(left[0], Failed, ThenFinish)};
    var steps2, s2 := FailureEvaluates(cfg, ids, waves, steps + [Resume(c, {}, true)], s, p, left[0]);
    var wave, db := waves[q.currentBatch + 1], q.db[left[0] := Failed];
    assert CurrentBatch(s) == wave;
    NoneFailed(db, wave);
    steps', q', total' := steps2, s.(db := db, pending := p), |Rows(db, wave)|;
  }

  // --- failures that no evaluation counts ---

  /** Every dispatched execution is among the exceptions, has failed, or is about to be marked as failed. */
  ghost predicate Accounted(s: Job, ok: set<Id>, left: seq<Id>) {
    forall e :: e in s.log ==> e in s.db && (e in ok || e in left || s.db[e] == Failed)
  }

  lemma {:induction false} FailuresLand(cfg: Config, ids: seq<Id>, waves: seq<seq<Id>>, steps: seq<Step>, s: Job, p: multiset<Task>,
                                        left: seq<Id>) returns (steps': seq<Step>, s': Job)
    requires JobRun(cfg, ids, waves, steps, s) && s.pending == p + Writes(left) && forall e :: e in left ==> e in s.db
    ensures JobRun(cfg, ids, waves, steps', s')
    ensures s'.completions == s.completions && s'.aborted == s.aborted && s'.db.Keys == s.db.Keys
    ensures forall e :: e in s.db ==> s'.db[e] == if e in left then Failed else s.db[e]
    decreases |left|
  {
    hide OnceRun;
    if left == [] {
      steps', s' := steps, s;
    } else {
      var w, d := Write(left[0], Failed, ThenFinish), Written(left[0], Failed, ThenFinish);
      assert s.pending == p + Writes(left[1..]) + multiset{w};
      WriteState(cfg, s, p + Writes(left[1..]), w);
      OnceSnoc(cfg, InitialJob(cfg, ids, waves), steps, s, Step.Commit(w));
      var s1 := s.(db := s.db[left[0] := Failed], pending := p + Writes(left[1..]) + multiset{d});
      assert s1.pending == p + multiset{d} + Writes(left[1..]);
      steps', s' := FailuresLand(cfg, ids, waves, steps + [Step.Commit(w)], s1, p + multiset{d}, left[1..]);
    }
  }

  /** The waves from the next one on are all offline: each is evaluated by a failure left over from an earlier
      wave, before any of its own is written. The job completes, and then the remaining failures land. */
  lemma {:induction false} RestFails(cfg: Config, ids: seq<Id>, waves: seq<seq<Id>>, steps: seq<Step>, q: Job, failures: nat, total: nat,
                                     left: seq<Id>, ok: set<Id>) returns (steps': seq<Step>, s: Job)
    requires RollingJob(cfg, ids, waves) && JobRun(cfg, ids, waves, steps, Await(q, Counted(failures, total)))
    requires Passes(cfg, failures, total) && Calm(ids, waves, q) && q.pending == Writes(left) && q.currentBatch < |waves|
    requires q.log == Flatten(waves[..q.currentBatch + 1]) && Accounted(q, ok, left)
    requires left != [] && forall e :: e in left ==> e in q.log
    requires forall j, e :: q.currentBatch < j < |waves| && e in waves[j] ==> e in q.db && q.db[e] == Pending
    ensures JobRun(cfg, ids, waves, steps', s) && s.completions == 1 && !s.aborted && s.db.Keys == SetOf(ids)
    ensures forall e :: e in ids ==> e in s.db && (e in ok || s.db[e] == Failed)
    decreases |waves| - q.currentBatch
  {
    hide OnceRun, OverThreshold, Launches;
    var k := q.currentBatch + 1;
    if k == |waves| {
      steps', s := LastLand(cfg, ids, waves, steps, q, failures, total, left, ok);
    } else {
      hide Calm, Accounted;
      var steps1, s1, t := NextLaunch(cfg, ids, waves, steps, q, failures, total);
      var steps2, q2, total2 := OfflineWave(cfg, ids, waves, steps1, s1, t, q, left, ok);
      NoFailuresPass(cfg, total2);
      steps', s := RestFails(cfg, ids, waves, steps2, q2, 0, total2, (left + waves[k])[1..], ok);
    }
  }

  lemma OfflineWave(cfg: Config, ids: seq<Id>, waves: seq<seq<Id>>, steps: seq<Step>, s': Job, t: Task, q: Job,
                    left: seq<Id>, ok: set<Id>) returns (steps': seq<Step>, q2: Job, total: nat)
    requires RollingJob(cfg, ids, waves) && Calm(ids, waves, q) && q.pending == Writes(left) && q.currentBatch + 1 < |waves|
    requires JobRun(cfg, ids, waves, steps, s') && Launches(cfg, s', t, Advanced(cfg, q))
    requires q.log == Flatten(waves[..q.currentBatch + 1]) && Accounted(q, ok, left)
    requires left != [] && forall e :: e in left ==> e in q.log
    requires forall j, e :: q.currentBatch < j < |waves| && e in waves[j] ==> e in q.db && q.db[e] == Pending
    ensures var k := q.currentBatch + 1;
            && JobRun(cfg, ids, waves, steps', Await(q2, Counted(0, total)))
            && Calm(ids, waves, q2) && q2.pending == Writes((left + waves[k])[1..]) && q2.currentBatch == k
            && q2.log == Flatten(waves[..k + 1]) && Accounted(q2, ok, (left + waves[k])[1..])
            && (left + waves[k])[1..] != [] && forall e :: e in (left + waves[k])[1..] ==> e in q2.log
    ensures forall j, e :: q2.currentBatch < j < |waves| && e in waves[j] ==> e in q2.db && q2.db[e] == Pending
  {
    hide OnceRun, Launches, Writes;
    var k := q.currentBatch + 1;
    WaveFacts(ids, waves, k);
    LogInIds(ids, waves, k);
    StillAccounted(waves, q, q.(log := q.log + waves[k], db := q.db[left[0] := Failed]), ok, left, waves[k]);
    steps', q2 := WaveOfflineEvaluated(cfg, ids, waves, steps, s', t, Advanced(cfg, q), left);
    assert (left + waves[k])[0] == left[0];
    NoneFailed(q2.db, waves[k]);
    total := |Rows(q2.db, waves[k])|;
    LeftEarlier(ids, waves, q, left);
  }

  lemma LeftEarlier(ids: seq<Id>, waves: seq<seq<Id>>, q: Job, left: seq<Id>)
    requires NoDup(ids) && Flatten(waves) == ids && q.currentBatch < |waves|
    requires q.log == Flatten(waves[..q.currentBatch + 1]) && left != [] && left[0] in q.log
    ensures forall j, e :: q.currentBatch < j < |waves| && e in waves[j] ==> e != left[0]
  {
    forall j, e | q.currentBatch < j < |waves| && e in waves[j] ensures e != left[0] {
      NotEarlier(waves, q.currentBatch + 1, j, e);
    }
  }

  lemma NotEarlier(waves: seq<seq<Id>>, n: nat, j: nat, e: Id)
    requires NoDup(Flatten(waves)) && n <= j < |waves| && e in waves[j]
    ensures e !in Flatten(waves[..n])
  {
    FlattenSplit(waves, n);
    NoDupSplit(Flatten(waves[..n]), Flatten(waves[n..]));
    InFlatten(waves[n..], e);
    assert waves[n..][j - n] == waves[j];
  }

  lemma LogInIds(ids: seq<Id>, waves: seq<seq<Id>>, k: nat)
    requires Flatten(waves) == ids && k <= |waves|
    ensures forall e :: e in Flatten(waves[..k]) ==> e in ids
  {
    FlattenSplit(waves, k);
  }

  lemma StillAccounted(waves: seq<seq<Id>>, q: Job, q2: Job, ok: set<Id>, left: seq<Id>, wave: seq<Id>)
    requires Accounted(q, ok, left) && left != [] && forall e :: e in left ==> e in q.log
    requires q2.log == q.log + wave && q2.db == q.db[left[0] := Failed] && forall e :: e in wave ==> e in q.db
    ensures Accounted(q2, ok, (left + wave)[1..])
    ensures forall e :: e in (left + wave)[1..] ==> e in q2.log
  {
    assert (left + wave)[1..] == left[1..] + wave;
    assert left == [left[0]] + left[1..];
  }

  lemma LastLand(cfg: Config, ids: seq<Id>, waves: seq<seq<Id>>, steps: seq<Step>, q: Job, failures: nat, total: nat,
                 left: seq<Id>, ok: set<Id>) returns (steps': seq<Step>, s: Job)
    requires RollingJob(cfg, ids, waves) && JobRun(cfg, ids, waves, steps, Await(q, Counted(failures, total)))
    requires Passes(cfg, failures, total) && Calm(ids, waves, q) && q.pending == Writes(left) && q.currentBatch + 1 == |waves|
    requires q.log == Flatten(waves[..q.currentBatch + 1]) && Accounted(q, ok, left)
    requires forall e :: e in left ==> e in q.log
    ensures JobRun(cfg, ids, waves, steps', s) && s.completions == 1 && !s.aborted && s.db.Keys == SetOf(ids)
    ensures forall e :: e in ids ==> e in s.db && (e in ok || s.db[e] == Failed)
  {
    hide OnceRun, OverThreshold;
    var c := Counted(failures, total);
    var step := Resume(c, {}, true);
    OnceSnoc(cfg, InitialJob(cfg, ids, waves), steps, Await(q, c), step);
    assert Take(Await(q, c), c) == q;
    var s1 := Next(cfg, Await(q, c), step);
    assert s1 == Complete(q.(currentBatch := |waves|));
    assert s1.pending == multiset{Completing} + Writes(left);
    assert waves[..|waves|] == waves;
    steps', s := FailuresLand(cfg, ids, waves, steps + [step], s1, multiset{Completing}, left);
  }

  /** A first wave of two or more passes any threshold, with at most one execution that does not fail: if one
      failure alone is within the threshold of the wave, none. */
  lemma FirstWaveUncounted(cfg: Config, ids: seq<Id>, waves: seq<seq<Id>>)
    returns (steps: seq<Step>, q: Job, failures: nat, total: nat, left: seq<Id>, ok: set<Id>)
    requires RollingJob(cfg, ids, waves) && |waves[0]| >= 2
    ensures JobRun(cfg, ids, waves, steps, Await(q, Counted(failures, total))) && Passes(cfg, failures, total)
    ensures Calm(ids, waves, q) && q.pending == Writes(left) && q.currentBatch == 0
    ensures q.log == Flatten(waves[..1]) && Accounted(q, ok, left) && left != [] && forall e :: e in left ==> e in q.log
    ensures forall j, e :: 0 < j < |waves| && e in waves[j] ==> e in q.db && q.db[e] == Pending
    ensures if Passes(cfg, 1, |waves[0]|) then ok == {} else |ok| == 1
  {
    hide OnceRun, OverThreshold, Calm, Writes, Accounted;
    FirstLog(ids, waves);
    if Passes(cfg, 1, |waves[0]|) {
      steps, q := FirstWaveFails(cfg, ids, waves);
      failures, total, left, ok := 1, |waves[0]|, waves[0][1..], {};
      AccountedFirst(ids, waves, q, {});
    } else {
      steps, q, total := BigWavePasses(cfg, ids, waves, 0);
      NoFailuresPass(cfg, total);
      failures, left, ok := 0, waves[0][1..], {waves[0][0]};
      AccountedFirst(ids, waves, q, ok);
    }
  }

  lemma FirstLog(ids: seq<Id>, waves: seq<seq<Id>>)
    requires Flatten(waves) == ids && waves != []
    ensures Flatten(waves[..0]) == [] && Flatten(waves[..1]) == waves[0]
  {
    FlattenTake(waves, 0);
    assert waves[..0] == [];
    assert [] + waves[0] == waves[0];
  }

  lemma AccountedFirst(ids: seq<Id>, waves: seq<seq<Id>>, q: Job, ok: set<Id>)
    requires Flatten(waves) == ids && waves != [] && waves[0] != [] && q.log == waves[0] && Calm(ids, waves, q)
    requires waves[0][0] in q.db ==> waves[0][0] in ok || q.db[waves[0][0]] == Failed
    ensures Accounted(q, ok, waves[0][1..]) && forall e :: e in waves[0][1..] ==> e in q.log
  {
    assert waves[0] == [waves[0][0]] + waves[0][1..];
    FirstLog(ids, waves);
    LogInIds(ids, waves, 1);
  }

  lemma FirstWaveFails(cfg: Config, ids: seq<Id>, waves: seq<seq<Id>>) returns (steps: seq<Step>, q: Job)
    requires RollingJob(cfg, ids, waves) && |waves[0]| >= 2
    ensures JobRun(cfg, ids, waves, steps, Await(q, Counted(1, |waves[0]|)))
    ensures Calm(ids, waves, q) && q.pending == Writes(waves[0][1..]) && q.currentBatch == 0
    ensures q.log == waves[0] && waves[0][0] in q.db && q.db[waves[0][0]] == Failed
    ensures forall j, e :: 0 < j < |waves| && e in waves[j] ==> e in q.db && q.db[e] == Pending
  {
    hide OnceRun, Launches, Writes, OverThreshold;
    FirstLog(ids, waves);
    WaveFacts(ids, waves, 0);
    var steps1, s1, t, s := ReachWave(cfg, ids, waves, 0);
    steps, q := WaveOfflineEvaluated(cfg, ids, waves, steps1, s1, t, s, []);
    hide Flatten;
    assert [] + waves[0] == waves[0];
    OneFailed(q.db, waves[0]);
  }

  lemma OneFailed(db: map<Id, Status>, wave: seq<Id>)
    requires wave != [] && NoDup(wave) && forall e :: e in wave ==> e in db
    requires db[wave[0]] == Failed && forall e :: e in wave && e != wave[0] ==> db[e] != Failed
    ensures |FailedRows(db, wave)| == 1 && |Rows(db, wave)| == |wave|
  {
    assert FailedRows(db, wave) == {wave[0]};
    assert Rows(db, wave) == SetOf(wave);
    CardOfNoDup(wave);
  }

  /** The failure budget breaks for every threshold below 100 percent if the first wave has two or more. */
  lemma OfflineBreaksBudget(cfg: Config, ids: seq<Id>, waves: seq<seq<Id>>)
    requires RollingJob(cfg, ids, waves) && |waves[0]| >= 2
    requires cfg.stopOnFailurePercent.Some? && 0.0 < cfg.stopOnFailurePercent.value < 100.0
    ensures exists steps: seq<Step>, s: Job ::
              JobRun(cfg, ids, waves, steps, s) && s.completions == 1 && !s.aborted && !JobWithinBudget(cfg, ids, s.db)
  {
    hide OnceRun;
    var steps1, q, failures, total, left, ok := FirstWaveUncounted(cfg, ids, waves);
    var steps, s := RestFails(cfg, ids, waves, steps1, q, failures, total, left, ok);
    LongerThanFirst(ids, waves);
    BudgetMissed(cfg, ids, |waves[0]|, s.db, ok);
    assert !JobWithinBudget(cfg, ids, s.db);
  }

  lemma LongerThanFirst(ids: seq<Id>, waves: seq<seq<Id>>)
    requires Flatten(waves) == ids && waves != []
    ensures |ids| >= |waves[0]|
  {
  }

  lemma BudgetMissed(cfg: Config, ids: seq<Id>, n: nat, db: map<Id, Status>, ok: set<Id>)
    requires cfg.stopOnFailurePercent.Some? && 0.0 < cfg.stopOnFailurePercent.value < 100.0
    requires NoDup(ids) && |ids| >= n >= 2 && db.Keys == SetOf(ids) && forall e :: e in ids ==> e in ok || db[e] == Failed
    requires if Passes(cfg, 1, n) then ok == {} else |ok| == 1
    ensures !JobWithinBudget(cfg, ids, db)
  {
    hide OverThreshold, JobWithinBudget;
    FailedCard(ids, db, ok);
    FewAreEnough(cfg, n, |ids|, |FailedIn(db)|);
    OverBudget(cfg, ids, db);
  }

  lemma OverBudget(cfg: Config, ids: seq<Id>, db: map<Id, Status>)
    requires cfg.stopOnFailurePercent.Some? && cfg.stopOnFailurePercent.value != 0.0
    requires |FailedIn(db)| as real * 100.0 > cfg.stopOnFailurePercent.value * |ids| as real
    ensures !JobWithinBudget(cfg, ids, db)
  {
  }

  lemma FailedCard(ids: seq<Id>, db: map<Id, Status>, ok: set<Id>)
    requires NoDup(ids) && db.Keys == SetOf(ids) && forall e :: e in ids ==> e in ok || db[e] == Failed
    ensures |FailedIn(db)| + |ok| >= |ids|
  {
    var failed := FailedIn(db);
    CardOfNoDup(ids);
    assert SetOf(ids) <= failed + ok;
    UnionCard(SetOf(ids), failed, ok);
  }

  lemma FewAreEnough(cfg: Config, n: nat, all: nat, failures: nat)
    requires cfg.stopOnFailurePercent.Some? && 0.0 < cfg.stopOnFailurePercent.value < 100.0 && all >= n >= 2
    requires failures >= if Passes(cfg, 1, n) then all else all - 1
    ensures failures as real * 100.0 > cfg.stopOnFailurePercent.value * all as real
  {
    hide OverThreshold;
    if Passes(cfg, 1, n) {
      AboveShare(cfg.stopOnFailurePercent.value, 100.0, all, failures);
    } else {
      HalfAtMost(cfg, n);
      HalfShare(all, failures);
      AboveShare(cfg.stopOnFailurePercent.value, 50.0, all, failures);
    }
  }

  lemma HalfShare(n: nat, failures: nat)
    requires failures + 1 >= n >= 2
    ensures failures as real * 100.0 >= 50.0 * n as real
  {
    assert 2 * failures >= n;
  }

  lemma UnionCard(all: set<Id>, a: set<Id>, b: set<Id>)
    requires all <= a + b
    ensures |all| <= |a| + |b|
  {
    assert a + b == a + (b - a);
    CardUpTo(all, a + b);
    CardUpTo(b - a, b);
  }

  lemma HalfAtMost(cfg: Config, n: nat)
    requires n >= 2 && !Passes(cfg, 1, n) && cfg.stopOnFailurePercent.value > 0.0
    ensures cfg.stopOnFailurePercent.value < 50.0
  {
    AtLeastTwice(cfg.stopOnFailurePercent.value, n);
  }

  lemma AtLeastTwice(p: real, n: nat)
    requires n >= 2 && p > 0.0
    ensures p * n as real >= 2.0 * p
  {
    assert p * n as real == 2.0 * p + p * (n - 2) as real;
  }

  lemma AboveShare(p: real, bound: real, n: nat, failures: nat)
    requires 0.0 < p < bound && n > 0 && failures as real * 100.0 >= bound * n as real
    ensures failures as real * 100.0 > p * n as real
  {
    assert (bound - p) * n as real > 0.0;
  }

  // --- a wave that was passed over is lost ---

  lemma {:induction false} DispatchAllLog(s: Job, es: seq<Id>, online: set<Id>)
    ensures DispatchAll(s, es, online).log == if s.live && !s.aborted then s.log + es else s.log
    decreases |es|
  {
    if es == [] {
      assert s.log + es == s.log;
    } else {
      DispatchAllLog(Dispatch(s, es[0], online), es[1..], online);
      assert s.log + es == s.log + [es[0]] + es[1..];
    }
  }

  /** In rolling mode a step dispatches nothing, or the whole wave it then stands at. */
  ghost predicate LogGrows(s: Job, s': Job) {
    && s'.currentBatch >= s.currentBatch
    && (s'.log == s.log || s'.log == s.log + CurrentBatch(s'))
  }

  lemma RunWaveGrows(s: Job, online: set<Id>)
    ensures LogGrows(s, RunWave(s, online)) && RunWave(s, online).currentBatch == s.currentBatch
  {
    DispatchAllLog(s, CurrentBatch(s), online);
    DispatchAllFrame(s, CurrentBatch(s), online);
  }

  lemma StepGrows(cfg: Config, s: Job, step: Step)
    requires cfg.mode.Rolling? && Enabled(s, step)
    ensures LogGrows(s, Next(cfg, s, step))
  {
    if step.Resume? {
      var s0 := Take(s, step.t);
      if step.t.Starting? || step.t.WaveTimer? {
        RunWaveGrows(s0, step.online);
      } else if step.t.Counted? {
        RunWaveGrows(s0.(currentBatch := s0.currentBatch + 1), step.online);
      }
    }
  }

  /** An execution of a wave the job has moved beyond is never dispatched later on. */
  lemma {:induction false} PassedWavesAreLost(cfg: Config, from: Job, steps: seq<Step>, s: Job, k: nat, e: Id)
    requires cfg.mode.Rolling? && NoDup(Flatten(from.batches))
    requires k < from.currentBatch && k < |from.batches| && e in from.batches[k] && e !in from.log
    requires Reaches(cfg, from, steps, s)
    ensures e !in s.log
    decreases |steps|
  {
    if steps == [] {
    } else {
      var next := Next(cfg, from, steps[0]);
      StepGrows(cfg, from, steps[0]);
      StepFrame(cfg, from, steps[0]);
      if next.currentBatch < |next.batches| {
        DisjointPieces(from.batches, k, next.currentBatch, e);
      }
      PassedWavesAreLost(cfg, next, steps[1..], s, k, e);
    }
  }
}
