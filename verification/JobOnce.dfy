/** Runs in which each execution finishes once: its result is reported at most once, and a command that
    was not accepted reports none. Nothing is assumed about which machines are online. */
module JobOnce {
  import opened Wrappers
  import opened Chunks
  import opened JobMachine
  import opened JobAbort
  import opened JobRolling

  ghost predicate OnceStep(s: Job, step: Step) {
    match step
    case Resume(t, _, sent) => t.Sending? && !sent ==> t.e in s.running && !ResultPending(s, t.e)
    case Report(e, _) => e in s.running && !ResultPending(s, e)
    case _ => true
  }

  ghost predicate OnceRun(cfg: Config, from: Job, steps: seq<Step>, s: Job)
    decreases |steps|
  {
    if steps == [] then s == from
    else
      && Enabled(from, steps[0])
      && OnceStep(from, steps[0])
      && OnceRun(cfg, Next(cfg, from, steps[0]), steps[1..], s)
  }

  lemma {:induction false} OnceSnoc(cfg: Config, from: Job, steps: seq<Step>, s: Job, step: Step)
    requires OnceRun(cfg, from, steps, s) && Enabled(s, step) && OnceStep(s, step)
    ensures OnceRun(cfg, from, steps + [step], Next(cfg, s, step))
    decreases |steps|
  {
    if steps == [] {
      assert steps + [step] == [step] && [step][1..] == [];
    } else {
      OnceSnoc(cfg, Next(cfg, from, steps[0]), steps[1..], s, step);
      assert (steps + [step])[1..] == steps[1..] + [step];
    }
  }

  lemma {:induction false} OnceReaches(cfg: Config, from: Job, steps: seq<Step>, s: Job)
    requires OnceRun(cfg, from, steps, s)
    ensures Reaches(cfg, from, steps, s)
    decreases |steps|
  {
    if steps == [] {
      assert s == from;
    } else {
      OnceReaches(cfg, Next(cfg, from, steps[0]), steps[1..], s);
    }
  }

  /** A rolling job as the server starts it: it has targets, and a failure threshold is not negative. */
  ghost predicate RollingJob(cfg: Config, ids: seq<Id>, waves: seq<seq<Id>>) {
    && cfg.mode.Rolling?
    && Startable(cfg, ids, waves) && ids != []
    && (cfg.stopOnFailurePercent.Some? ==> cfg.stopOnFailurePercent.value >= 0.0)
  }

  lemma NormalizedThreshold(cfg: Config, raw: Option<real>, ids: seq<Id>, waves: seq<seq<Id>>, size: nat)
    requires cfg.mode.Rolling? && cfg.stopOnFailurePercent == NormalizeThreshold(raw)
    requires NoDup(ids) && ids != [] && CutsInto(waves, ids, size)
    ensures RollingJob(cfg, ids, waves)
  {
  }

  predicate AllSingle(waves: seq<seq<Id>>) { forall k :: 0 <= k < |waves| ==> |waves[k]| == 1 }

  /** A run in which each execution finishes once, from the start of the job. */
  ghost predicate JobRun(cfg: Config, ids: seq<Id>, waves: seq<seq<Id>>, steps: seq<Step>, s: Job) {
    OnceRun(cfg, InitialJob(cfg, ids, waves), steps, s)
  }

  // --- waves of one execution need no assumption about the machines ---

  lemma InSomeWave(ids: seq<Id>, s: Job, e: Id)
    requires Waves(ids, s) && AllSingle(s.batches) && e in ids
    ensures Sole(s, e)
  {
    InFlatten(s.batches, e);
    var k :| 0 <= k < |s.batches| && e in s.batches[k];
    assert s.batches[k] == [e];
  }

  lemma OnceIsClean(cfg: Config, ids: seq<Id>, s: Job, step: Step)
    requires Inv(cfg, ids, s) && AllSingle(s.batches) && Enabled(s, step) && OnceStep(s, step)
    ensures CleanStep(s, step)
  {
    if step.Resume? && step.t.Sending? {
      assert TaskOk(ids, s, step.t);
      InSomeWave(ids, s, step.t.e);
    }
  }

  lemma {:induction false} OnceRunIsClean(cfg: Config, ids: seq<Id>, from: Job, steps: seq<Step>, s: Job)
    requires Inv(cfg, ids, from) && cfg.mode.Rolling? && AllSingle(from.batches) && OnceRun(cfg, from, steps, s)
    ensures CleanRun(cfg, from, steps, s)
    decreases |steps|
  {
    if steps == [] {
      assert s == from;
    } else {
      OnceIsClean(cfg, ids, from, steps[0]);
      StepRoll(cfg, ids, from, steps[0]);
      StepFrame(cfg, from, steps[0]);
      OnceRunIsClean(cfg, ids, Next(cfg, from, steps[0]), steps[1..], s);
    }
  }

  lemma SingleWavesAreClean(cfg: Config, ids: seq<Id>, waves: seq<seq<Id>>, steps: seq<Step>, s: Job)
    requires RollingJob(cfg, ids, waves) && AllSingle(waves) && JobRun(cfg, ids, waves, steps, s)
    ensures RollingRun(cfg, ids, waves, steps, s)
  {
    var s0 := InitialJob(cfg, ids, waves);
    assert CleanRun(cfg, s0, [], s0);
    ReachableRoll(cfg, ids, waves, [], s0);
    OnceRunIsClean(cfg, ids, s0, steps, s);
  }
}
