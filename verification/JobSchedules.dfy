/** Runs of a rolling job built step by step: waves that succeed, waves that are offline, and the extra
    evaluations that offline executions cause. Every execution finishes at most once in them. */
module JobSchedules {
  import opened Chunks
  import opened JobMachine
  import opened JobOnce

  /** The outstanding FAILED writes of offline executions. */
  function Writes(es: seq<Id>): multiset<Task> {
    if es == [] then multiset{} else multiset{Write(es[0], Failed, ThenFinish)} + Writes(es[1..])
  }

  lemma {:induction false} WritesConcat(a: seq<Id>, b: seq<Id>)
    ensures Writes(a + b) == Writes(a) + Writes(b)
  {
    if a == [] {
      assert a + b == b;
    } else {
      assert (a + b)[0] == a[0] && (a + b)[1..] == a[1..] + b;
      WritesConcat(a[1..], b);
    }
  }

  lemma {:induction false} WritesIff(es: seq<Id>, t: Task)
    ensures t in Writes(es) <==> t.Write? && t == Write(t.e, Failed, ThenFinish) && t.e in es
  {
    if es == [] {
      assert t !in Writes(es);
    } else {
      WritesIff(es[1..], t);
    }
  }

  /** Nothing runs and nothing was completed or aborted so far. */
  ghost predicate Calm(ids: seq<Id>, waves: seq<seq<Id>>, s: Job) {
    && s.live && !s.aborted && s.completions == 0
    && s.running == {} && s.inflight == {}
    && s.batches == waves && s.db.Keys == SetOf(ids)
  }

  lemma {:induction false} DispatchOffline(s: Job, es: seq<Id>, online: set<Id>)
    requires s.live && !s.aborted && forall e :: e in es ==> e !in online
    ensures var s' := DispatchAll(s, es, online);
            s' == s.(queue := s'.queue, log := s.log + es, pending := s.pending + Writes(es))
    decreases |es|
  {
    if es == [] {
      assert s.log + es == s.log;
      assert s.pending + Writes(es) == s.pending;
    } else {
      var s1 := Dispatch(s, es[0], online);
      DispatchOffline(s1, es[1..], online);
      assert s.log + es == s.log + [es[0]] + es[1..];
      assert s1.pending == s.pending + multiset{Write(es[0], Failed, ThenFinish)};
      assert s.pending + Writes(es) == s1.pending + Writes(es[1..]);
    }
  }

  // --- the end of an execution, and the evaluation it causes ---

  function Evaluation(db: map<Id, Status>, batch: seq<Id>): Task {
    Counted(|FailedRows(db, batch)|, |Rows(db, batch)|)
  }

  /** The finish of the last running execution leads to an evaluation of the current wave, whichever that is. */
  lemma FinishEvaluates(cfg: Config, ids: seq<Id>, waves: seq<seq<Id>>, steps: seq<Step>, s: Job, p: multiset<Task>, t: Task)
    returns (steps': seq<Step>, s': Job)
    requires cfg.mode.Rolling? && JobRun(cfg, ids, waves, steps, s)
    requires s.live && !s.aborted && t.Written? && !t.next.ThenSend? && s.pending == p + multiset{t} && s.running <= {t.e}
    requires t.next.ThenFinish? ==> s.inflight == {}
    requires t.next.ThenFinishReported? ==> s.inflight == {t.e}
    ensures JobRun(cfg, ids, waves, steps', s')
    ensures s' == s.(running := {}, inflight := {}, pending := p + multiset{Evaluation(s.db, CurrentBatch(s))})
  {
    hide OnceRun;
    var s0 := InitialJob(cfg, ids, waves);
    var resume, count := Resume(t, {}, true), Step.Commit(Counting(CurrentBatch(s)));
    var s1 := s.(running := {}, inflight := {}, pending := p + multiset{Counting(CurrentBatch(s))});
    FinishState(cfg, s, p, t);
    assert CurrentBatch(s1) == CurrentBatch(s);
    CountState(cfg, s1, p);
    hide Next;
    OnceSnoc(cfg, s0, steps, s, resume);
    OnceSnoc(cfg, s0, steps + [resume], s1, count);
    steps', s' := steps + [resume] + [count], Next(cfg, s1, count);
  }

  lemma FinishState(cfg: Config, s: Job, p: multiset<Task>, t: Task)
    requires cfg.mode.Rolling? && s.live && !s.aborted
    requires t.Written? && !t.next.ThenSend? && s.pending == p + multiset{t} && s.running <= {t.e}
    requires t.next.ThenFinish? ==> s.inflight == {}
    requires t.next.ThenFinishReported? ==> s.inflight <= {t.e}
    ensures Next(cfg, s, Resume(t, {}, true))
         == s.(running := {}, inflight := {}, pending := p + multiset{Counting(CurrentBatch(s))})
  {
    var s0, s1 := s.(pending := p), s.(inflight := {}, pending := p);
    TakeAdded(s, p, t);
    FinishedTarget(cfg, s1, t.e);
    assert s.inflight - {t.e} == {};
    hide Take, OnFinished;
    assert AfterWrite(cfg, s0, t.e, t.next, {}) == OnFinished(cfg, s1, t.e, {});
  }

  lemma FinishedTarget(cfg: Config, s: Job, e: Id)
    requires cfg.mode.Rolling? && s.live && !s.aborted && s.running <= {e}
    ensures OnFinished(cfg, s, e, {}) == s.(running := {}, pending := s.pending + multiset{Counting(CurrentBatch(s))})
  {
    assert s.running - {e} == {};
    assert CurrentBatch(s.(running := {})) == CurrentBatch(s);
  }

  lemma CountState(cfg: Config, s: Job, p: multiset<Task>)
    requires s.pending == p + multiset{Counting(CurrentBatch(s))}
    ensures Next(cfg, s, Step.Commit(Counting(CurrentBatch(s))))
         == s.(pending := p + multiset{Evaluation(s.db, CurrentBatch(s))})
  {
    assert s.pending - multiset{Counting(CurrentBatch(s))} == p;
  }

  /** The failure of an offline execution is written, and its finish evaluates the current wave. */
  lemma FailureEvaluates(cfg: Config, ids: seq<Id>, waves: seq<seq<Id>>, steps: seq<Step>, s: Job, p: multiset<Task>, e: Id)
    returns (steps': seq<Step>, s': Job)
    requires cfg.mode.Rolling? && JobRun(cfg, ids, waves, steps, s) && Calm(ids, waves, s) && e in s.db
    requires s.pending == p + multiset{Write(e, Failed, ThenFinish)}
    ensures JobRun(cfg, ids, waves, steps', s')
    ensures var db := s.db[e := Failed];
            s' == s.(db := db, pending := p + multiset{Evaluation(db, CurrentBatch(s))})
  {
    var commit, t := Step.Commit(Write(e, Failed, ThenFinish)), Written(e, Failed, ThenFinish);
    OnceSnoc(cfg, InitialJob(cfg, ids, waves), steps, s, commit);
    var s1 := Next(cfg, s, commit);
    assert s.pending - multiset{Write(e, Failed, ThenFinish)} == p;
    assert s1 == s.(db := s.db[e := Failed], pending := p + multiset{t});
    assert CurrentBatch(s1) == CurrentBatch(s);
    steps', s' := FinishEvaluates(cfg, ids, waves, steps + [commit], s1, p, t);
  }

  /** An execution that was dispatched to an online machine is sent. */
  lemma SendSucceeds(cfg: Config, ids: seq<Id>, waves: seq<seq<Id>>, steps: seq<Step>, s: Job, p: multiset<Task>, b: Id)
    returns (steps': seq<Step>, s': Job)
    requires JobRun(cfg, ids, waves, steps, s) && s.inflight == {} && b in s.db
    requires s.pending == p + multiset{Write(b, Running, ThenSend)}
    ensures JobRun(cfg, ids, waves, steps', s')
    ensures s' == s.(db := s.db[b := Running], inflight := {b}, pending := p)
  {
    hide JobRun;
    var w, d, g := Write(b, Running, ThenSend), Written(b, Running, ThenSend), Sending(b);
    var s1 := s.(db := s.db[b := Running], pending := p + multiset{d});
    var s2 := s1.(inflight := {b}, pending := p + multiset{g});
    WriteState(cfg, s, p, w);
    StartedState(cfg, s1, p, b);
    SentState(cfg, s2, p, b);
    hide Enabled, OnceStep, Next;
    steps' := OneStep(cfg, ids, waves, steps, s, Step.Commit(w), s1);
    steps' := OneStep(cfg, ids, waves, steps', s1, Resume(d, {}, true), s2);
    s' := s2.(pending := p);
    steps' := OneStep(cfg, ids, waves, steps', s2, Resume(g, {}, true), s');
  }

  lemma OneStep(cfg: Config, ids: seq<Id>, waves: seq<seq<Id>>, steps: seq<Step>, s: Job, step: Step, next: Job)
    returns (steps': seq<Step>)
    requires JobRun(cfg, ids, waves, steps, s) && Enabled(s, step) && OnceStep(s, step) && Next(cfg, s, step) == next
    ensures JobRun(cfg, ids, waves, steps', next)
  {
    OnceSnoc(cfg, InitialJob(cfg, ids, waves), steps, s, step);
    steps' := steps + [step];
  }

  lemma WriteState(cfg: Config, s: Job, p: multiset<Task>, w: Task)
    requires w.Write? && w.e in s.db && s.pending == p + multiset{w}
    ensures Enabled(s, Step.Commit(w)) && OnceStep(s, Step.Commit(w))
    ensures Next(cfg, s, Step.Commit(w)) == s.(db := s.db[w.e := w.st], pending := p + multiset{Written(w.e, w.st, w.next)})
  {
    TakeAdded(s, p, w);
    hide Take;
  }

  lemma StartedState(cfg: Config, s: Job, p: multiset<Task>, b: Id)
    requires s.inflight == {} && s.pending == p + multiset{Written(b, Running, ThenSend)}
    ensures Enabled(s, Resume(Written(b, Running, ThenSend), {}, true)) && OnceStep(s, Resume(Written(b, Running, ThenSend), {}, true))
    ensures Next(cfg, s, Resume(Written(b, Running, ThenSend), {}, true))
         == s.(inflight := {b}, pending := p + multiset{Sending(b)})
  {
    TakeAdded(s, p, Written(b, Running, ThenSend));
    hide Take, OnFinished;
  }

  lemma SentState(cfg: Config, s: Job, p: multiset<Task>, b: Id)
    requires s.pending == p + multiset{Sending(b)}
    ensures Enabled(s, Resume(Sending(b), {}, true)) && OnceStep(s, Resume(Sending(b), {}, true))
    ensures Next(cfg, s, Resume(Sending(b), {}, true)) == s.(pending := p)
  {
    TakeAdded(s, p, Sending(b));
    hide Take;
  }

  lemma TakeAdded(s: Job, p: multiset<Task>, t: Task)
    requires s.pending == p + multiset{t}
    ensures Take(s, t) == s.(pending := p)
  {
    assert s.pending - multiset{t} == p;
  }

  /** The only running execution reports SUCCESS, and its finish evaluates the current wave. */
  lemma SuccessEvaluates(cfg: Config, ids: seq<Id>, waves: seq<seq<Id>>, steps: seq<Step>, s: Job, b: Id)
    returns (steps': seq<Step>, s': Job)
    requires cfg.mode.Rolling? && JobRun(cfg, ids, waves, steps, s) && s.live && !s.aborted && b in s.db
    requires s.running == {b} && s.inflight == {b} && forall t :: t in s.pending ==> !(t.Write? || t.Written?) || t.e != b
    ensures JobRun(cfg, ids, waves, steps', s')
    ensures var db := s.db[b := Success];
            s' == s.(running := {}, inflight := {}, db := db, pending := s.pending + multiset{Evaluation(db, CurrentBatch(s))})
  {
    var s0 := InitialJob(cfg, ids, waves);
    var report, w, d := Report(b, Success), Write(b, Success, ThenFinishReported), Written(b, Success, ThenFinishReported);
    OnceSnoc(cfg, s0, steps, s, report);
    var s1 := Next(cfg, s, report);
    OnceSnoc(cfg, s0, steps + [report], s1, Step.Commit(w));
    var s2 := Next(cfg, s1, Step.Commit(w));
    assert s1.pending - multiset{w} == s.pending;
    assert s2 == s.(db := s.db[b := Success], pending := s.pending + multiset{d});
    assert CurrentBatch(s2) == CurrentBatch(s);
    steps', s' := FinishEvaluates(cfg, ids, waves, steps + [report] + [Step.Commit(w)], s2, s.pending, d);
  }

  // --- whole waves ---

  /** Resuming `t` in `s'` dispatches the current wave of `s`. */
  ghost predicate Launches(cfg: Config, s': Job, t: Task, s: Job) {
    && t in s'.pending && !NeedsCommit(t) && !t.Sending?
    && forall online: set<Id> :: ResumeTask(cfg, s', t, online, true) == RunWave(s, online)
  }

  lemma StartLaunches(cfg: Config, ids: seq<Id>, waves: seq<seq<Id>>)
    requires cfg.mode.Rolling?
    ensures var s' := InitialJob(cfg, ids, waves);
            && Launches(cfg, s', Starting, s'.(pending := multiset{}))
            && Calm(ids, waves, s'.(pending := multiset{}))
  {
    var s' := InitialJob(cfg, ids, waves);
    assert Take(s', Starting) == s'.(pending := multiset{});
  }

  predicate Passes(cfg: Config, failures: nat, total: nat) { !OverThreshold(cfg, failures, total) }

  /** A wave without counted failures passes every threshold that is not negative. */
  lemma NoFailuresPass(cfg: Config, total: nat)
    requires cfg.stopOnFailurePercent.Some? ==> cfg.stopOnFailurePercent.value >= 0.0
    ensures Passes(cfg, 0, total)
  {
    if cfg.stopOnFailurePercent.Some? {
      NotNegative(cfg.stopOnFailurePercent.value, total as real);
    }
  }

  lemma NotNegative(p: real, n: real)
    requires p >= 0.0 && n >= 0.0
    ensures p * n >= 0.0
  {
  }

  /** The job as it stands at the next wave. */
  function Advanced(cfg: Config, q: Job): Job { q.(currentBatch := q.currentBatch + 1, timer := q.timer || cfg.waits) }

  /** A passed evaluation launches the next wave, after the pause if there is one. */
  lemma NextLaunch(cfg: Config, ids: seq<Id>, waves: seq<seq<Id>>, steps: seq<Step>, q: Job, failures: nat, total: nat)
    returns (steps': seq<Step>, s': Job, t: Task)
    requires JobRun(cfg, ids, waves, steps, Await(q, Counted(failures, total)))
    requires Passes(cfg, failures, total) && q.currentBatch + 1 < |q.batches|
    ensures JobRun(cfg, ids, waves, steps', s')
    ensures Launches(cfg, s', t, Advanced(cfg, q))
  {
    hide OnceRun, RunWave, OverThreshold, ResumeTask;
    var c, s := Counted(failures, total), Await(q, Counted(failures, total));
    PassedState(cfg, q, failures, total);
    if cfg.waits {
      var step := Resume(c, {}, true);
      OnceSnoc(cfg, InitialJob(cfg, ids, waves), steps, s, step);
      steps', s', t := steps + [step], Pause(q.(currentBatch := q.currentBatch + 1)), WaveTimer;
      TimerState(cfg, q.(currentBatch := q.currentBatch + 1));
    } else {
      steps', s', t := steps, s, c;
    }
  }

  lemma TimerState(cfg: Config, s: Job)
    ensures forall online: set<Id> :: ResumeTask(cfg, Pause(s), WaveTimer, online, true) == RunWave(s.(timer := true), online)
  {
    hide RunWave;
    assert Take(Pause(s), WaveTimer) == s.(timer := true);
  }

  lemma PassedState(cfg: Config, q: Job, failures: nat, total: nat)
    requires Passes(cfg, failures, total) && q.currentBatch + 1 < |q.batches|
    ensures forall online: set<Id> ::
              ResumeTask(cfg, Await(q, Counted(failures, total)), Counted(failures, total), online, true)
              == if cfg.waits then Pause(q.(currentBatch := q.currentBatch + 1))
                 else RunWave(q.(currentBatch := q.currentBatch + 1), online)
  {
    hide RunWave;
    assert Take(Await(q, Counted(failures, total)), Counted(failures, total)) == q;
  }

  /** The wave is dispatched; only its first machine is online, and that one succeeds. */
  lemma WaveSucceeds(cfg: Config, ids: seq<Id>, waves: seq<seq<Id>>, steps: seq<Step>, s': Job, t: Task, s: Job, left: seq<Id>)
    returns (steps': seq<Step>, q: Job)
    requires cfg.mode.Rolling? && JobRun(cfg, ids, waves, steps, s') && Launches(cfg, s', t, s)
    requires Calm(ids, waves, s) && s.pending == Writes(left)
    requires s.currentBatch < |waves| && waves[s.currentBatch] != [] && NoDup(waves[s.currentBatch])
    requires forall e :: e in waves[s.currentBatch] ==> e in ids && e !in left && s.db[e] != Failed
    ensures var wave := waves[s.currentBatch];
            && JobRun(cfg, ids, waves, steps', Await(q, Counted(0, |Rows(q.db, wave)|)))
            && q == s.(queue := q.queue, log := s.log + wave, db := s.db[wave[0] := Success], pending := Writes(left + wave[1..]))
  {
    hide OnceRun, Launches, RunWave;
    var wave := waves[s.currentBatch];
    var b, rest := wave[0], wave[1..];
    var p := Writes(left) + Writes(rest);
    assert wave == [b] + rest;
    var steps1, s1 := LaunchFirst(cfg, ids, waves, steps, s', t, s, b, rest);
    assert s1.pending == p + multiset{Write(b, Running, ThenSend)};
    NoOtherWrite(left, rest, b);
    var steps3, s3 := RunSucceeds(cfg, ids, waves, steps1, s1, p, b);
    WritesConcat(left, rest);
    steps', q := steps3, s1.(running := {}, db := s.db[b := Success], pending := p);
    NoneFailed(q.db, wave);
    hide Writes, FailedRows, Rows;
    assert CurrentBatch(s1) == wave;
    assert s3 == Await(q, Counted(0, |Rows(q.db, wave)|));
  }

  /** The only running execution is sent, reports SUCCESS, and its finish evaluates the current wave. */
  lemma RunSucceeds(cfg: Config, ids: seq<Id>, waves: seq<seq<Id>>, steps: seq<Step>, s: Job, p: multiset<Task>, b: Id)
    returns (steps': seq<Step>, s': Job)
    requires cfg.mode.Rolling? && JobRun(cfg, ids, waves, steps, s) && s.live && !s.aborted && b in s.db
    requires s.running == {b} && s.inflight == {} && s.pending == p + multiset{Write(b, Running, ThenSend)}
    requires forall t :: t in p ==> !(t.Write? || t.Written?) || t.e != b
    ensures JobRun(cfg, ids, waves, steps', s')
    ensures var db := s.db[b := Success];
            s' == s.(running := {}, db := db, pending := p + multiset{Evaluation(db, CurrentBatch(s))})
  {
    hide OnceRun;
    var steps2, s2 := SendSucceeds(cfg, ids, waves, steps, s, p, b);
    steps', s' := SuccessEvaluates(cfg, ids, waves, steps2, s2, b);
    assert s.db[b := Running][b := Success] == s.db[b := Success];
    assert CurrentBatch(s2) == CurrentBatch(s);
  }

  lemma NoOtherWrite(left: seq<Id>, rest: seq<Id>, b: Id)
    requires b !in left && b !in rest
    ensures forall x :: x in Writes(left) + Writes(rest) ==> !(x.Write? || x.Written?) || x.e != b
  {
    forall x | x in Writes(left) + Writes(rest) ensures !(x.Write? || x.Written?) || x.e != b {
      WritesIff(left, x);
      WritesIff(rest, x);
    }
  }

  lemma NoneFailed(db: map<Id, Status>, wave: seq<Id>)
    requires forall e :: e in wave && e in db ==> db[e] != Failed
    ensures FailedRows(db, wave) == {}
  {
  }

  lemma LaunchFirst(cfg: Config, ids: seq<Id>, waves: seq<seq<Id>>, steps: seq<Step>, s': Job, t: Task, s: Job, b: Id, rest: seq<Id>)
    returns (steps': seq<Step>, s1: Job)
    requires JobRun(cfg, ids, waves, steps, s') && Launches(cfg, s', t, s)
    requires s.live && !s.aborted && CurrentBatch(s) == [b] + rest && b !in rest && s.running == {}
    ensures JobRun(cfg, ids, waves, steps', s1)
    ensures s1 == s.(queue := s1.queue, log := s.log + ([b] + rest), running := {b},
                     pending := s.pending + multiset{Write(b, Running, ThenSend)} + Writes(rest))
  {
    hide OnceRun, RunWave;
    var launch := Resume(t, {b}, true);
    OnceSnoc(cfg, InitialJob(cfg, ids, waves), steps, s', launch);
    SplitLaunch(s, b, rest);
    steps', s1 := steps + [launch], RunWave(s, {b});
  }

  lemma SplitLaunch(s: Job, b: Id, rest: seq<Id>)
    requires s.live && !s.aborted && CurrentBatch(s) == [b] + rest && b !in rest && s.running == {}
    ensures var s1 := RunWave(s, {b});
            s1 == s.(queue := s1.queue, log := s.log + ([b] + rest), running := {b},
                     pending := s.pending + multiset{Write(b, Running, ThenSend)} + Writes(rest))
  {
    var s0 := Dispatch(s, b, {b});
    assert ([b] + rest)[0] == b && ([b] + rest)[1..] == rest;
    assert RunWave(s, {b}) == DispatchAll(s0, rest, {b});
    DispatchOffline(s0, rest, {b});
    assert s.log + [b] + rest == s.log + ([b] + rest);
    assert s.running + {b} == {b};
  }

  /** The wave is dispatched to offline machines; the oldest outstanding failure evaluates it. */
  lemma WaveOfflineEvaluated(cfg: Config, ids: seq<Id>, waves: seq<seq<Id>>, steps: seq<Step>, s': Job, t: Task, s: Job, left: seq<Id>)
    returns (steps': seq<Step>, q: Job)
    requires cfg.mode.Rolling? && JobRun(cfg, ids, waves, steps, s') && Launches(cfg, s', t, s)
    requires Calm(ids, waves, s) && s.pending == Writes(left)
    requires s.currentBatch < |waves| && waves[s.currentBatch] != []
    requires forall e :: e in waves[s.currentBatch] || e in left ==> e in ids
    ensures var wave, all := waves[s.currentBatch], left + waves[s.currentBatch];
            && JobRun(cfg, ids, waves, steps', Await(q, Evaluation(q.db, wave)))
            && q == s.(queue := q.queue, log := s.log + wave, db := s.db[all[0] := Failed], pending := Writes(all[1..]))
  {
    var wave, all := waves[s.currentBatch], left + waves[s.currentBatch];
    hide JobRun, Launches, RunWave, Writes, Evaluation, SetOf;
    var steps1, s1 := LaunchOffline(cfg, ids, waves, steps, s', t, s, left);
    FirstIsKnown(ids, left, wave);
    steps', q := FirstFails(cfg, ids, waves, steps1, s1, all);
  }

  /** The oldest outstanding failure is written and evaluates the current wave. */
  lemma FirstFails(cfg: Config, ids: seq<Id>, waves: seq<seq<Id>>, steps: seq<Step>, s: Job, all: seq<Id>)
    returns (steps': seq<Step>, q: Job)
    requires cfg.mode.Rolling? && JobRun(cfg, ids, waves, steps, s) && Calm(ids, waves, s)
    requires s.pending == Writes(all) && all != [] && all[0] in SetOf(ids)
    ensures JobRun(cfg, ids, waves, steps', Await(q, Evaluation(q.db, CurrentBatch(s))))
    ensures q == s.(db := s.db[all[0] := Failed], pending := Writes(all[1..]))
  {
    hide JobRun, SetOf, Evaluation;
    assert s.pending == Writes(all[1..]) + multiset{Write(all[0], Failed, ThenFinish)};
    var steps2, s2 := FailureEvaluates(cfg, ids, waves, steps, s, Writes(all[1..]), all[0]);
    steps', q := steps2, s2.(pending := Writes(all[1..]));
    assert s2 == Await(q, Evaluation(q.db, CurrentBatch(s)));
  }

  lemma FirstIsKnown(ids: seq<Id>, left: seq<Id>, wave: seq<Id>)
    requires wave != [] && forall e :: e in wave || e in left ==> e in ids
    ensures (left + wave)[0] in SetOf(ids)
  {
    assert (left + wave)[0] in left || (left + wave)[0] in wave;
  }

  lemma LaunchOffline(cfg: Config, ids: seq<Id>, waves: seq<seq<Id>>, steps: seq<Step>, s': Job, t: Task, s: Job, left: seq<Id>)
    returns (steps': seq<Step>, s1: Job)
    requires JobRun(cfg, ids, waves, steps, s') && Launches(cfg, s', t, s) && s.live && !s.aborted
    requires s.pending == Writes(left) && CurrentBatch(s) != []
    ensures JobRun(cfg, ids, waves, steps', s1)
    ensures s1 == s.(queue := s1.queue, log := s.log + CurrentBatch(s), pending := Writes(left + CurrentBatch(s)))
  {
    hide JobRun;
    s1 := RunWave(s, {});
    steps' := OneStep(cfg, ids, waves, steps, s', Resume(t, {}, true), s1);
    DispatchOffline(s, CurrentBatch(s), {});
    WritesConcat(left, CurrentBatch(s));
  }
}
