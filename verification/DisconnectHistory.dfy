/** When a grace timer runs out. An execution's grace timer is the one its entry names, so output cancels it; and
    an execution is failed for a lost agent only if the agent was gone for 15 seconds without any output. */
module DisconnectHistory {
  import opened Wrappers
  import JobMachine
  import opened Disconnect

  type Id = JobMachine.Id
  type Status = JobMachine.Status

  // --- output cancels the timer ---

  ghost predicate IsGrace(s: State, h: nat, e: Id) { h in s.timers && s.timers[h].GraceOver? && s.timers[h].e == e }

  /** The grace timer of an execution in flight is the one its entry names, and the entry names no other timer. */
  ghost predicate OwnTimers(s: State) {
    && (forall h :: h in s.timers ==> h < s.nextTimer && s.timers[h].e in s.dispatched)
    && (forall e :: e in s.inflight && s.inflight[e].Some? ==>
          && s.inflight[e].value < s.nextTimer
          && (s.inflight[e].value in s.timers ==> IsGrace(s, s.inflight[e].value, e)))
    && (forall h: nat, e :: IsGrace(s, h, e) && e in s.inflight ==> s.inflight[e] == Some(h))
  }

  lemma DisconnectOneOwn(s: State, e: Id)
    requires OwnTimers(s) && s.inflight.Keys <= s.dispatched
    ensures OwnTimers(DisconnectOne(s, e)) && DisconnectOne(s, e).inflight.Keys <= s.dispatched
    ensures DisconnectOne(s, e).dispatched == s.dispatched
  {
    var s' := DisconnectOne(s, e);
    forall h: nat, x | IsGrace(s', h, x) && x in s'.inflight ensures s'.inflight[x] == Some(h) {
      assert h != s.nextTimer ==> IsGrace(s, h, x);
    }
  }

  lemma {:induction false} DisconnectAllOwn(s: State, es: seq<Id>)
    requires OwnTimers(s) && s.inflight.Keys <= s.dispatched
    ensures OwnTimers(DisconnectAll(s, es))
    decreases |es|
  {
    if es == [] {
      assert DisconnectAll(s, es) == s;
    } else {
      DisconnectOneOwn(s, es[0]);
      DisconnectAllOwn(DisconnectOne(s, es[0]), es[1..]);
    }
  }

  /** A change that starts no grace timer and puts nothing new in flight. */
  lemma FewerTimersOwn(s: State, s': State)
    requires OwnTimers(s) && s.dispatched <= s'.dispatched && s.nextTimer <= s'.nextTimer
    requires forall h :: h in s'.timers ==>
               (h in s.timers && s'.timers[h] == s.timers[h])
               || (s.nextTimer <= h < s'.nextTimer && s'.timers[h].Forget? && s'.timers[h].e in s'.dispatched)
    requires forall e :: e in s'.inflight ==>
               (e in s.inflight && s'.inflight[e] == s.inflight[e])
               || (s'.inflight[e].None? && forall h: nat :: !IsGrace(s', h, e))
    ensures OwnTimers(s')
  {
    forall h: nat, e | IsGrace(s', h, e) && e in s'.inflight ensures s'.inflight[e] == Some(h) {
      assert IsGrace(s, h, e);
    }
  }

  lemma OutputOwn(s: State, e: Id, text: bool, completion: Option<Status>)
    requires OwnTimers(s) && e in s.inflight && e in s.dispatched
    ensures var s' := Output(s, e, text, completion);
            && OwnTimers(s') && e in s'.inflight && s'.inflight[e] == None
            && (forall h: nat :: !IsGrace(s', h, e))
            && (forall h :: h in s.timers && !IsGrace(s, h, e) ==> h in s'.timers && s'.timers[h] == s.timers[h])
  {
    var s' := Output(s, e, text, completion);
    forall h: nat ensures !IsGrace(s', h, e) {
      if IsGrace(s', h, e) {
        assert IsGrace(s, h, e);
      }
    }
    FewerTimersOwn(s, s');
  }

  lemma ResumedOwn(s: State, a: Await)
    requires OwnTimers(s) && a in s.awaits && !IsOperation(a) && a.e in s.dispatched
    ensures OwnTimers(Resumed(s, a))
  {
    FewerTimersOwn(s, Resumed(s, a));
  }

  lemma FiredOwn(s: State, h: nat)
    requires OwnTimers(s) && h in s.timers
    ensures OwnTimers(Fired(s, h))
  {
    FewerTimersOwn(s, Fired(s, h));
  }

  lemma CommittedOwn(s: State, a: Await)
    requires OwnTimers(s) && IsOperation(a) && a.e in s.db
    ensures OwnTimers(Committed(s, a))
  {
    FewerTimersOwn(s, Committed(s, a));
  }

  lemma DispatchedOwn(s: State, e: Id)
    requires OwnTimers(s) && e !in s.dispatched
    ensures OwnTimers(Next(s, Dispatched(e)))
  {
    FewerTimersOwn(s, Next(s, Dispatched(e)));
  }

  lemma StepOwn(s: State, step: Step)
    requires Inv(s) && OwnTimers(s) && Enabled(s, step)
    ensures OwnTimers(Next(s, step))
  {
    assert s.inflight.Keys <= s.dispatched;
    assert step.Resume? ==> AwaitOk(s, step.a);
    hide Inv, OwnTimers, Fired, Committed, Resumed, Output, DisconnectAll;
    match step
    case AgentGone(es) => DisconnectAllOwn(s, es);
    case Message(e, text, completion) => OutputOwn(s, e, text, completion);
    case Dispatched(e) => DispatchedOwn(s, e);
    case Resume(a) => ResumedOwn(s, a);
    case Tick(_) => FewerTimersOwn(s, Next(s, step));
    case Fire(h) => FiredOwn(s, h);
    case Commit(a) => CommittedOwn(s, a);
  }

  lemma {:induction false} RunOwn(from: State, steps: seq<Step>, s: State)
    requires Inv(from) && OwnTimers(from) && Reaches(from, steps, s)
    ensures OwnTimers(s)
    decreases |steps|
  {
    if steps == [] {
      assert s == from;
    } else {
      StepKeeps(from, steps[0]);
      StepOwn(from, steps[0]);
      RunOwn(Next(from, steps[0]), steps[1..], s);
    }
  }

  /** Any output of an execution ends its grace period: afterwards it has no grace timer, and its entry names none.
      All other timers go on. */
  lemma OutputCancelsTimer(before: seq<Step>, s: State, e: Id, text: bool, completion: Option<Status>)
    requires Reaches(START, before, s) && Enabled(s, Message(e, text, completion))
    ensures var s' := Next(s, Message(e, text, completion));
            && e in s'.inflight && s'.inflight[e] == None
            && (forall h :: h in s'.timers && s'.timers[h].GraceOver? ==> s'.timers[h].e != e)
            && (forall h :: h in s.timers && s.timers[h] != GraceOver(e, s.timers[h].due) ==>
                  h in s'.timers && s'.timers[h] == s.timers[h])
  {
    RunKeeps(START, before, s);
    RunOwn(START, before, s);
    InFlightDispatched(s);
    hide Inv, OwnTimers, Output, Reaches;
    OutputCancels(s, e, text, completion);
  }

  lemma InFlightDispatched(s: State)
    requires Inv(s)
    ensures s.inflight.Keys <= s.dispatched
  {
  }

  lemma OutputCancels(s: State, e: Id, text: bool, completion: Option<Status>)
    requires OwnTimers(s) && e in s.inflight && e in s.dispatched
    ensures var s' := Output(s, e, text, completion);
            && e in s'.inflight && s'.inflight[e] == None
            && (forall h :: h in s'.timers && s'.timers[h].GraceOver? ==> s'.timers[h].e != e)
            && (forall h :: h in s.timers && s.timers[h] != GraceOver(e, s.timers[h].due) ==>
                  h in s'.timers && s'.timers[h] == s.timers[h])
  {
    OutputOwn(s, e, text, completion);
    hide OwnTimers, Output;
    var s' := Output(s, e, text, completion);
    forall h | h in s'.timers && s'.timers[h].GraceOver? ensures s'.timers[h].e != e {
      assert !IsGrace(s', h, e);
    }
  }

  // --- when a timer was started ---

  /** The milliseconds that pass in a run. */
  function Elapsed(steps: seq<Step>): (ms: nat) {
    if steps == [] then 0 else (if steps[0].Tick? then steps[0].ms else 0) + Elapsed(steps[1..])
  }

  predicate Quiet(steps: seq<Step>, e: Id) {
    forall i :: 0 <= i < |steps| ==> !(steps[i].Message? && steps[i].e == e)
  }

  /** The agent of `e` is lost, and from then on there is no output of `e` for at least `ms` milliseconds. */
  ghost predicate SilentFor(steps: seq<Step>, e: Id, ms: nat) {
    exists i :: && 0 <= i < |steps| && steps[i].AgentGone? && e in steps[i].es
                && Quiet(steps[i..], e) && Elapsed(steps[i..]) >= ms
  }

  lemma {:induction false} Clock(from: State, steps: seq<Step>, s: State)
    requires Reaches(from, steps, s)
    ensures s.now == from.now + Elapsed(steps)
    decreases |steps|
  {
    if steps == [] {
      assert s == from;
    } else {
      StepClock(from, steps[0]);
      Clock(Next(from, steps[0]), steps[1..], s);
    }
  }

  lemma {:induction false} DisconnectAllClock(s: State, es: seq<Id>)
    ensures DisconnectAll(s, es).now == s.now
    decreases |es|
  {
    if es == [] {
      assert DisconnectAll(s, es) == s;
    } else {
      DisconnectAllClock(DisconnectOne(s, es[0]), es[1..]);
    }
  }

  lemma StepClock(s: State, step: Step)
    requires Enabled(s, step)
    ensures Next(s, step).now == s.now + (if step.Tick? then step.ms else 0)
  {
    if step.AgentGone? {
      DisconnectAllClock(s, step.es);
    }
  }

  /** A grace timer after the loss of an agent was there before, or was started for one of the executions lost. */
  lemma {:induction false} DisconnectAllStarts(s: State, es: seq<Id>, h: nat, e: Id)
    requires IsGrace(DisconnectAll(s, es), h, e)
    ensures var t := DisconnectAll(s, es).timers[h];
            (h in s.timers && s.timers[h] == t) || (e in es && t.due == s.now + 15000)
    decreases |es|
  {
    if es == [] {
      assert DisconnectAll(s, es) == s;
    } else {
      var s1 := DisconnectOne(s, es[0]);
      DisconnectAllStarts(s1, es[1..], h, e);
      assert h in s1.timers ==>
               (h in s.timers && s.timers[h] == s1.timers[h]) || s1.timers[h] == GraceOver(es[0], s.now + 15000);
    }
  }

  lemma StepStarts(s: State, step: Step, h: nat, e: Id)
    requires Inv(s) && OwnTimers(s) && Enabled(s, step) && IsGrace(Next(s, step), h, e)
    ensures var t := Next(s, step).timers[h];
            || (h in s.timers && s.timers[h] == t && !(step.Message? && step.e == e))
            || (step.AgentGone? && e in step.es && t.due == s.now + 15000)
  {
    match step
    case AgentGone(es) => DisconnectAllStarts(s, es, h, e);
    case Message(x, text, completion) => MessageStarts(s, x, text, completion, h, e);
    case _ => OthersStart(s, step, h, e);
  }

  lemma MessageStarts(s: State, x: Id, text: bool, completion: Option<Status>, h: nat, e: Id)
    requires OwnTimers(s) && x in s.inflight && x in s.dispatched && IsGrace(Output(s, x, text, completion), h, e)
    ensures x != e && h in s.timers && s.timers[h] == Output(s, x, text, completion).timers[h]
  {
    OutputOwn(s, x, text, completion);
    hide OwnTimers;
  }

  lemma OthersStart(s: State, step: Step, h: nat, e: Id)
    requires Enabled(s, step) && !step.AgentGone? && !step.Message? && IsGrace(Next(s, step), h, e)
    ensures h in s.timers && s.timers[h] == Next(s, step).timers[h]
  {
  }

  /** A grace timer that is still running: since it was started there was no output of its execution. */
  lemma {:induction false} RunStarts(from: State, steps: seq<Step>, s: State, h: nat, e: Id)
    requires Inv(from) && OwnTimers(from) && Reaches(from, steps, s) && IsGrace(s, h, e)
    ensures (IsGrace(from, h, e) && from.timers[h] == s.timers[h] && Quiet(steps, e))
            || StartedIn(from, steps, s.timers[h])
    decreases |steps|
  {
    if steps == [] {
      assert s == from;
    } else {
      var m := Next(from, steps[0]);
      StepKeeps(from, steps[0]);
      StepOwn(from, steps[0]);
      RunStarts(m, steps[1..], s, h, e);
      if StartedIn(m, steps[1..], s.timers[h]) {
        StartedLater(from, steps, s.timers[h]);
      } else {
        StepStarts(from, steps[0], h, e);
        QuietCons(steps, e);
        if !(IsGrace(from, h, e) && from.timers[h] == s.timers[h]) {
          assert StartsHere(from, steps, s.timers[h], 0);
        }
      }
    }
  }

  ghost predicate StartsHere(from: State, steps: seq<Step>, t: Timer, i: int) {
    && 0 <= i < |steps| && steps[i].AgentGone? && t.e in steps[i].es
    && t.due == from.now + Elapsed(steps[..i]) + 15000
    && Quiet(steps[i..], t.e)
  }

  ghost predicate StartedIn(from: State, steps: seq<Step>, t: Timer) { exists i :: StartsHere(from, steps, t, i) }

  lemma QuietCons(steps: seq<Step>, e: Id)
    requires steps != [] && Quiet(steps[1..], e) && !(steps[0].Message? && steps[0].e == e)
    ensures Quiet(steps, e)
  {
    forall i | 0 <= i < |steps| ensures !(steps[i].Message? && steps[i].e == e) {
      assert i > 0 ==> steps[1..][i - 1] == steps[i];
    }
  }

  lemma StartedLater(from: State, steps: seq<Step>, t: Timer)
    requires steps != [] && Enabled(from, steps[0]) && StartedIn(Next(from, steps[0]), steps[1..], t)
    ensures StartedIn(from, steps, t)
  {
    var m := Next(from, steps[0]);
    var i :| StartsHere(m, steps[1..], t, i);
    StepClock(from, steps[0]);
    assert steps[1..][i..] == steps[i + 1..];
    assert steps[..i + 1][1..] == steps[1..][..i];
    assert StartsHere(from, steps, t, i + 1);
  }

  lemma {:induction false} ElapsedSplit(steps: seq<Step>, i: nat)
    requires i <= |steps|
    ensures Elapsed(steps) == Elapsed(steps[..i]) + Elapsed(steps[i..])
  {
    if i == 0 {
      assert steps[..0] == [] && steps[0..] == steps;
    } else {
      ElapsedSplit(steps[1..], i - 1);
      assert steps[..i][1..] == steps[1..][..i - 1];
      assert steps[1..][i - 1..] == steps[i..];
    }
  }

  lemma DueMeansSilent(before: seq<Step>, s: State, h: nat, e: Id)
    requires Reaches(START, before, s) && IsGrace(s, h, e) && s.timers[h].due <= s.now
    ensures SilentFor(before, e, 15000)
  {
    RunStarts(START, before, s, h, e);
    Clock(START, before, s);
    var i :| StartsHere(START, before, s.timers[h], i);
    ElapsedSplit(before, i);
  }

  /** The callback of a grace timer starts only if the agent of its execution was lost at least 15 seconds ago,
      and there was no output of the execution since. */
  lemma CallbackAfterSilence(before: seq<Step>, s: State, step: Step, e: Id)
    requires Reaches(START, before, s) && Enabled(s, step)
    requires Next(s, step).awaits[Reading(e)] > s.awaits[Reading(e)]
    ensures step.Fire? && SilentFor(before, e, 15000)
  {
    StartsReading(s, step, e);
    DueMeansSilent(before, s, step.h, e);
  }

  lemma StartsReading(s: State, step: Step, e: Id)
    requires Enabled(s, step) && Next(s, step).awaits[Reading(e)] > s.awaits[Reading(e)]
    ensures step.Fire? && IsGrace(s, step.h, e)
  {
    match step
    case AgentGone(es) => DisconnectFrame(s, es);
    case Message(x, text, completion) => OutputReads(s, x, text, completion, e);
    case Commit(a) => CommitReads(s, a, e);
    case Resume(a) => ResumeReads(s, a, e);
    case _ =>
  }

  lemma OutputReads(s: State, x: Id, text: bool, completion: Option<Status>, e: Id)
    requires x in s.inflight
    ensures Output(s, x, text, completion).awaits[Reading(e)] == s.awaits[Reading(e)]
  {
  }

  lemma CommitReads(s: State, a: Await, e: Id)
    requires IsOperation(a) && a.e in s.db
    ensures Committed(s, a).awaits[Reading(e)] <= s.awaits[Reading(e)]
  {
  }

  lemma ResumeReads(s: State, a: Await, e: Id)
    requires !IsOperation(a)
    ensures Resumed(s, a).awaits[Reading(e)] <= s.awaits[Reading(e)]
  {
  }

  // --- why an execution is FAILED ---

  predicate OfCallback(a: Await) { a.Reading? || a.ReadBack? || a.Failing? || a.FailDone? }

  ghost predicate CallbackRuns(s: State, e: Id) { exists a :: a in s.awaits && OfCallback(a) && a.e == e }

  /** The callback of a grace timer has started, or FAILED is stored without such a result. */
  ghost predicate Doomed(s: State, e: Id) {
    CallbackRuns(s, e)
    || (e in s.db && s.db[e] == JobMachine.Failed && !(e in s.result && s.result[e] == JobMachine.Failed))
  }

  lemma FewerCallbacks(s: State, s': State, e: Id)
    requires !CallbackRuns(s, e) && forall a :: a in s'.awaits && OfCallback(a) && a.e == e ==> a in s.awaits
    ensures !CallbackRuns(s', e)
  {
  }

  lemma DoomOfOutput(s: State, x: Id, text: bool, completion: Option<Status>, e: Id)
    requires Inv(s) && Enabled(s, Message(x, text, completion)) && !Doomed(s, e)
    ensures !Doomed(Output(s, x, text, completion), e)
  {
    FewerCallbacks(s, Output(s, x, text, completion), e);
    hide Inv, CallbackRuns;
  }

  lemma DoomOfCommit(s: State, a: Await, e: Id)
    requires a in s.awaits && AwaitOk(s, a) && IsOperation(a) && a.e in s.db && !Doomed(s, e)
    ensures !Doomed(Committed(s, a), e)
  {
    assert OfCallback(a) ==> a.e != e;
    CommittedFrame(s, a);
    FewerCallbacks(s, Committed(s, a), e);
    hide CallbackRuns;
  }

  lemma DoomOfResume(s: State, a: Await, e: Id)
    requires a in s.awaits && AwaitOk(s, a) && !IsOperation(a) && !Doomed(s, e)
    ensures !Doomed(Resumed(s, a), e)
  {
    assert OfCallback(a) ==> a.e != e;
    FewerCallbacks(s, Resumed(s, a), e);
    hide CallbackRuns;
  }

  lemma StepDooms(s: State, step: Step, e: Id)
    requires Inv(s) && Enabled(s, step) && !Doomed(s, e)
    ensures Doomed(Next(s, step), e) ==> step.Fire? && Next(s, step).awaits[Reading(e)] > s.awaits[Reading(e)]
  {
    match step
    case AgentGone(es) =>
      DisconnectFrame(s, es);
      FewerCallbacks(s, Next(s, step), e);
    case Message(x, text, completion) => DoomOfOutput(s, x, text, completion, e);
    case Commit(a) =>
      assert AwaitOk(s, a);
      DoomOfCommit(s, a, e);
    case Resume(a) =>
      assert AwaitOk(s, a);
      DoomOfResume(s, a, e);
    case Tick(_) => FewerCallbacks(s, Next(s, step), e);
    case Dispatched(_) => FewerCallbacks(s, Next(s, step), e);
    case Fire(h) => FireDooms(s, h, e);
  }

  lemma FireDooms(s: State, h: nat, e: Id)
    requires h in s.timers && !Doomed(s, e)
    ensures Doomed(Fired(s, h), e) ==> Fired(s, h).awaits[Reading(e)] > s.awaits[Reading(e)]
  {
    var s' := Fired(s, h);
    if s'.awaits[Reading(e)] <= s.awaits[Reading(e)] {
      FewerCallbacks(s, s', e);
    }
  }

  /** Some grace timer fired after 15 seconds without output of `e`. */
  ghost predicate GraceRanOut(steps: seq<Step>, e: Id) {
    exists j :: 0 <= j < |steps| && steps[j].Fire? && SilentFor(steps[..j], e, 15000)
  }

  lemma DoomsHere(before: seq<Step>, from: State, steps: seq<Step>, e: Id)
    requires Reaches(START, before, from) && Inv(from) && !Doomed(from, e) && steps != [] && Enabled(from, steps[0])
    requires Doomed(Next(from, steps[0]), e)
    ensures GraceRanOut(before + steps, e)
  {
    StepDooms(from, steps[0], e);
    CallbackAfterSilence(before, from, steps[0], e);
    hide Doomed, Inv, SilentFor, Next, Enabled;
    assert (before + steps)[..|before|] == before && (before + steps)[|before|] == steps[0];
  }

  lemma Further(before: seq<Step>, from: State, step: Step)
    requires Reaches(START, before, from) && Enabled(from, step)
    ensures Reaches(START, before + [step], Next(from, step))
  {
    hide Next, Enabled;
    assert Reaches(Next(from, step), [], Next(from, step));
    assert [step][1..] == [];
    Continues(START, before, from, [step], Next(from, step));
  }

  lemma {:induction false} RunDooms(before: seq<Step>, from: State, steps: seq<Step>, s: State, e: Id)
    requires Reaches(START, before, from) && Inv(from) && !Doomed(from, e) && Reaches(from, steps, s) && Doomed(s, e)
    ensures GraceRanOut(before + steps, e)
    decreases |steps|
  {
    hide Doomed, Inv, GraceRanOut, Next, Enabled;
    if steps == [] {
    } else {
      StepKeeps(from, steps[0]);
      if Doomed(Next(from, steps[0]), e) {
        DoomsHere(before, from, steps, e);
      } else {
        Further(before, from, steps[0]);
        RunDooms(before + [steps[0]], Next(from, steps[0]), steps[1..], s, e);
        assert before + steps == before + [steps[0]] + steps[1..];
      }
    }
  }

  /** An execution is stored as FAILED only with a failing result of its agent, or after a grace timer that
      fired when its agent had been lost for 15 seconds without any output. */
  lemma FailedHasReason(steps: seq<Step>, s: State, e: Id)
    requires Reaches(START, steps, s) && e in s.db && s.db[e] == JobMachine.Failed
    ensures (e in s.result && s.result[e] == JobMachine.Failed) || GraceRanOut(steps, e)
  {
    if !(e in s.result && s.result[e] == JobMachine.Failed) {
      assert Reaches(START, [], START);
      assert [] + steps == steps;
      RunDooms([], START, steps, s, e);
    }
  }

  // --- no completion is lost ---

  /** The completion of `e` with this status has been recorded, or waits behind the output that came with it. */
  ghost predicate Told(s: State, e: Id, st: Status) {
    (e in s.result && s.result[e] == st) || Appending(e, Some(st)) in s.awaits
  }

  predicate Tells(step: Step, e: Id, st: Status) { step.Message? && step.e == e && step.completion == Some(st) }

  lemma RecordTells(s: State, x: Id, reported: Status, e: Id, st: Status)
    requires x !in s.result
    ensures Told(Record(s, x, reported), e, st) <==> Told(s, e, st) || (x == e && reported == st)
  {
    assert Record(s, x, reported).awaits == s.awaits + multiset{Writing(x, reported)};
  }

  lemma MessageTells(s: State, x: Id, text: bool, completion: Option<Status>, e: Id, st: Status)
    requires x in s.inflight && (completion.Some? ==> x !in s.result)
    ensures Told(Output(s, x, text, completion), e, st) <==> Told(s, e, st) || (x == e && completion == Some(st))
  {
    var s0 := CancelTimer(s, x);
    assert s0.awaits == s.awaits && s0.result == s.result;
    hide CancelTimer;
    var s1 := s0.(announced := if completion.Some? then s0.announced + {x} else s0.announced);
    assert Told(s1, e, st) <==> Told(s, e, st);
    assert Told(Push(s1, Appending(x, completion)), e, st) <==> Told(s1, e, st) || (x == e && completion == Some(st));
    if completion.Some? {
      RecordTells(s1, x, completion.value, e, st);
    }
    hide Told, Record;
  }

  lemma CommitTells(s: State, a: Await, e: Id, st: Status)
    requires a in s.awaits && IsOperation(a) && a.e in s.db
    ensures Told(Committed(s, a), e, st) <==> Told(s, e, st)
  {
  }

  lemma ResumeTells(s: State, a: Await, e: Id, st: Status)
    requires a in s.awaits && !IsOperation(a) && AwaitOk(s, a)
    requires forall b :: b in s.awaits && Completes(a) && Completes(b) && a.e == b.e ==> a == b
    ensures Told(Resumed(s, a), e, st) <==> Told(s, e, st)
  {
    if Completes(a) {
      var s1 := Pop(s, a);
      assert s.awaits[a] == 1 && a.e !in s.result;
      assert Told(s, e, st) <==> Told(s1, e, st) || (a.e == e && a.completion.value == st);
      RecordTells(s1, a.e, a.completion.value, e, st);
      hide Told, Record;
    } else {
      OtherTells(s, a, e, st);
    }
  }

  lemma OtherTells(s: State, a: Await, e: Id, st: Status)
    requires a in s.awaits && !IsOperation(a) && !Completes(a)
    ensures Told(Resumed(s, a), e, st) <==> Told(s, e, st)
  {
  }

  lemma StepTells(s: State, step: Step, e: Id, st: Status)
    requires Inv(s) && Enabled(s, step)
    ensures Told(Next(s, step), e, st) <==> Told(s, e, st) || Tells(step, e, st)
  {
    CompletionsOnce(s);
    hide Inv, Output, Committed, Resumed, DisconnectAll, Fired;
    match step
    case AgentGone(es) => DisconnectFrame(s, es);
    case Message(x, text, completion) => MessageTells(s, x, text, completion, e, st);
    case Commit(a) => CommitTells(s, a, e, st);
    case Resume(a) => ResumeTells(s, a, e, st);
    case Fire(h) => FireTells(s, h);
    case _ =>
  }

  lemma FireTells(s: State, h: nat)
    requires h in s.timers
    ensures Fired(s, h).result == s.result
    ensures forall e, st :: Appending(e, Some(st)) in Fired(s, h).awaits <==> Appending(e, Some(st)) in s.awaits
  {
  }

  lemma CompletionsOnce(s: State)
    requires Inv(s)
    ensures s.result.Keys <= s.announced
    ensures forall a :: a in s.awaits ==> AwaitOk(s, a)
    ensures forall a, b :: a in s.awaits && b in s.awaits && Completes(a) && Completes(b) && a.e == b.e ==> a == b
  {
  }

  lemma {:induction false} RunTells(from: State, steps: seq<Step>, s: State, e: Id, st: Status)
    requires Inv(from) && Reaches(from, steps, s)
    ensures Told(s, e, st) <==> Told(from, e, st) || exists i :: 0 <= i < |steps| && Tells(steps[i], e, st)
    decreases |steps|
  {
    if steps == [] {
      assert s == from;
    } else {
      var rest := steps[1..];
      StepKeeps(from, steps[0]);
      StepTells(from, steps[0], e, st);
      RunTells(Next(from, steps[0]), rest, s, e, st);
      hide Told, Tells, Inv, Next;
      assert forall i :: 0 <= i < |rest| ==> rest[i] == steps[i + 1];
      if j :| 0 <= j < |steps| && Tells(steps[j], e, st) {
        assert j > 0 ==> Tells(rest[j - 1], e, st);
      }
      if k :| 0 <= k < |rest| && Tells(rest[k], e, st) {
        assert Tells(steps[k + 1], e, st);
      }
    }
  }

  /** A completion is recorded with the status its message carried, and every message that carries one is recorded
      as soon as the output that came with it is stored. */
  lemma NoCompletionLost(steps: seq<Step>, s: State, e: Id, st: Status)
    requires Reaches(START, steps, s) && Appending(e, Some(st)) !in s.awaits
    ensures (e in s.result && s.result[e] == st) <==>
              exists i :: 0 <= i < |steps| && steps[i].Message? && steps[i].e == e && steps[i].completion == Some(st)
  {
    RunTells(START, steps, s, e, st);
    if i :| 0 <= i < |steps| && Tells(steps[i], e, st) {
      assert steps[i].Message?;
    }
    if i :| 0 <= i < |steps| && steps[i].Message? && steps[i].e == e && steps[i].completion == Some(st) {
      assert Tells(steps[i], e, st);
    }
  }

  // --- the memory of completions ---

  /** At some step of the run the result of `e` was recorded, and from then on at least `ms` milliseconds pass. */
  ghost predicate RecordedFor(from: State, steps: seq<Step>, e: Id, ms: nat)
    decreases |steps|
  {
    && steps != [] && Enabled(from, steps[0])
    && var m := Next(from, steps[0]);
       (e !in from.result && e in m.result && Elapsed(steps) >= ms) || RecordedFor(m, steps[1..], e, ms)
  }

  ghost predicate IsMemory(s: State, h: nat, e: Id) { h in s.timers && s.timers[h].Forget? && s.timers[h].e == e }

  lemma {:induction false} DisconnectAllMemory(s: State, es: seq<Id>, h: nat, e: Id)
    requires IsMemory(DisconnectAll(s, es), h, e)
    ensures h in s.timers && s.timers[h] == DisconnectAll(s, es).timers[h]
    decreases |es|
  {
    if es == [] {
      assert DisconnectAll(s, es) == s;
    } else {
      DisconnectAllMemory(DisconnectOne(s, es[0]), es[1..], h, e);
    }
  }

  lemma StepRemembers(s: State, step: Step, h: nat, e: Id)
    requires Inv(s) && Enabled(s, step) && IsMemory(Next(s, step), h, e)
    ensures var t := Next(s, step).timers[h];
            || (h in s.timers && s.timers[h] == t)
            || (e !in s.result && e in Next(s, step).result && t.due == s.now + 60000)
  {
    match step
    case AgentGone(es) => DisconnectAllMemory(s, es, h, e);
    case Message(x, text, completion) => MessageRemembers(s, x, text, completion, h, e);
    case Resume(a) =>
      assert AwaitOk(s, a);
      ResumeRemembers(s, a, h, e);
    case _ => OthersRemember(s, step, h, e);
  }

  lemma MessageRemembers(s: State, x: Id, text: bool, completion: Option<Status>, h: nat, e: Id)
    requires x in s.inflight && (completion.Some? ==> x !in s.result) && IsMemory(Output(s, x, text, completion), h, e)
    ensures var s' := Output(s, x, text, completion);
            (h in s.timers && s.timers[h] == s'.timers[h])
            || (e !in s.result && e in s'.result && s'.timers[h].due == s.now + 60000)
  {
  }

  lemma ResumeRemembers(s: State, a: Await, h: nat, e: Id)
    requires !IsOperation(a) && (Completes(a) ==> a.e !in s.result) && IsMemory(Resumed(s, a), h, e)
    ensures var s' := Resumed(s, a);
            (h in s.timers && s.timers[h] == s'.timers[h])
            || (e !in s.result && e in s'.result && s'.timers[h].due == s.now + 60000)
  {
  }

  lemma OthersRemember(s: State, step: Step, h: nat, e: Id)
    requires Enabled(s, step) && !step.AgentGone? && !step.Message? && !step.Resume? && IsMemory(Next(s, step), h, e)
    ensures h in s.timers && s.timers[h] == Next(s, step).timers[h]
  {
  }

  lemma {:induction false} RunRemembers(from: State, steps: seq<Step>, s: State, h: nat, e: Id)
    requires Inv(from) && Reaches(from, steps, s) && IsMemory(s, h, e) && s.timers[h].due <= s.now
    ensures (IsMemory(from, h, e) && from.timers[h] == s.timers[h]) || RecordedFor(from, steps, e, 60000)
    decreases |steps|
  {
    if steps == [] {
      assert s == from;
    } else {
      var m := Next(from, steps[0]);
      StepKeeps(from, steps[0]);
      RunRemembers(m, steps[1..], s, h, e);
      if !RecordedFor(m, steps[1..], e, 60000) {
        StepRemembers(from, steps[0], h, e);
        Clock(from, steps, s);
      }
    }
  }

  /** A recorded completion is forgotten at least 60 seconds after it was recorded. */
  lemma ForgottenLate(before: seq<Step>, s: State, step: Step, e: Id)
    requires Reaches(START, before, s) && Enabled(s, step) && e in s.completed && e !in Next(s, step).completed
    ensures step.Fire? && RecordedFor(START, before, e, 60000)
  {
    Forgets(s, step, e);
    RunRemembers(START, before, s, step.h, e);
  }

  lemma {:induction false} DisconnectAllCompleted(s: State, es: seq<Id>)
    ensures DisconnectAll(s, es).completed == s.completed
    decreases |es|
  {
    if es == [] {
      assert DisconnectAll(s, es) == s;
    } else {
      DisconnectAllCompleted(DisconnectOne(s, es[0]), es[1..]);
    }
  }

  lemma Forgets(s: State, step: Step, e: Id)
    requires Enabled(s, step) && e in s.completed && e !in Next(s, step).completed
    ensures step.Fire? && IsMemory(s, step.h, e)
  {
    hide DisconnectAll, Output, Committed, Resumed;
    match step
    case AgentGone(es) => DisconnectAllCompleted(s, es);
    case Message(x, text, completion) => OutputCompletes(s, x, text, completion);
    case Commit(a) => CommitCompletes(s, a);
    case Resume(a) => ResumeCompletes(s, a);
    case _ =>
  }

  lemma OutputCompletes(s: State, x: Id, text: bool, completion: Option<Status>)
    requires x in s.inflight
    ensures s.completed <= Output(s, x, text, completion).completed
  {
  }

  lemma CommitCompletes(s: State, a: Await)
    requires IsOperation(a) && a.e in s.db
    ensures Committed(s, a).completed == s.completed
  {
  }

  lemma ResumeCompletes(s: State, a: Await)
    requires !IsOperation(a)
    ensures s.completed <= Resumed(s, a).completed
  {
  }

  // --- what the loss of an agent starts, and what ends it ---

  lemma {:induction false} LossFrame(s: State, es: seq<Id>, e: Id)
    requires e !in es || e !in s.inflight || s.inflight[e].Some?
    ensures var s' := DisconnectAll(s, es);
            && s'.completed == s.completed && s'.now == s.now && s'.nextTimer >= s.nextTimer
            && (e in s'.inflight <==> e in s.inflight) && (e in s.inflight ==> s'.inflight[e] == s.inflight[e])
            && (forall h :: h in s.timers && h < s.nextTimer ==> h in s'.timers && s'.timers[h] == s.timers[h])
    decreases |es|
  {
    if es == [] {
      assert DisconnectAll(s, es) == s;
    } else {
      LossFrame(DisconnectOne(s, es[0]), es[1..], e);
    }
  }

  /** When its agent is lost, an execution in flight without a grace timer gets one of 15 seconds; a completed one
      is no longer in flight instead. */
  lemma {:induction false} LossArms(s: State, es: seq<Id>, e: Id)
    requires e in es && e in s.inflight && s.inflight[e].None?
    ensures var s' := DisconnectAll(s, es);
            if e in s.completed then e !in s'.inflight
            else e in s'.inflight && s'.inflight[e].Some?
                 && s'.inflight[e].value in s'.timers
                 && s'.timers[s'.inflight[e].value] == GraceOver(e, s.now + 15000)
    decreases |es|
  {
    var s1 := DisconnectOne(s, es[0]);
    if es[0] == e {
      LossFrame(s1, es[1..], e);
    } else {
      assert s1.completed == s.completed && s1.now == s.now;
      LossArms(s1, es[1..], e);
    }
  }

  /** A grace timer that fires for a completed execution takes it out of flight, as does the end of the callback. */
  lemma CallbackEnds(s: State, step: Step, e: Id)
    requires Enabled(s, step)
    requires || (step.Fire? && s.timers[step.h].GraceOver? && s.timers[step.h].e == e && e in s.completed)
             || step == Step.Resume(FailDone(e)) || step == Step.Resume(Wrote(e))
             || step == Step.Resume(ReadBack(e, JobMachine.Success)) || step == Step.Resume(ReadBack(e, JobMachine.Failed))
    ensures e !in Next(s, step).inflight && Next(s, step).db == s.db
  {
  }

  // --- a grace period always comes to an end ---

  /** An entry that names a timer: the timer runs, or its callback does. */
  ghost predicate Guarded(s: State) {
    forall e :: e in s.inflight && s.inflight[e].Some? ==> IsGrace(s, s.inflight[e].value, e) || CallbackRuns(s, e)
  }

  lemma SameCallbacks(s: State, s': State, e: Id)
    requires CallbackRuns(s, e) && forall x :: x in s.awaits && OfCallback(x) && x.e == e ==> x in s'.awaits
    ensures CallbackRuns(s', e)
  {
    var x :| x in s.awaits && OfCallback(x) && x.e == e;
    assert x in s'.awaits;
  }

  /** A change after which every entry that names a timer still does so, and no callback of it has moved. */
  lemma StaysGuarded(s: State, s': State)
    requires Guarded(s)
    requires forall e :: e in s'.inflight && s'.inflight[e].Some? ==>
               && e in s.inflight && s'.inflight[e] == s.inflight[e]
               && (forall x :: x in s.awaits && OfCallback(x) && x.e == e ==> x in s'.awaits)
               && (IsGrace(s, s.inflight[e].value, e) ==> IsGrace(s', s.inflight[e].value, e))
    ensures Guarded(s')
  {
    forall e | e in s'.inflight && s'.inflight[e].Some?
      ensures IsGrace(s', s'.inflight[e].value, e) || CallbackRuns(s', e)
    {
      if !IsGrace(s, s.inflight[e].value, e) {
        SameCallbacks(s, s', e);
      }
    }
  }

  lemma DisconnectOneGuarded(s: State, e: Id)
    requires OwnTimers(s) && s.inflight.Keys <= s.dispatched && Guarded(s)
    ensures Guarded(DisconnectOne(s, e))
  {
    var s' := DisconnectOne(s, e);
    forall x | x in s'.inflight && s'.inflight[x].Some?
      ensures IsGrace(s', s'.inflight[x].value, x) || CallbackRuns(s', x)
    {
      if x in s.inflight && s'.inflight[x] == s.inflight[x] && !IsGrace(s, s.inflight[x].value, x) {
        SameCallbacks(s, s', x);
      }
    }
  }

  lemma {:induction false} DisconnectAllGuarded(s: State, es: seq<Id>)
    requires OwnTimers(s) && s.inflight.Keys <= s.dispatched && Guarded(s)
    ensures Guarded(DisconnectAll(s, es))
    decreases |es|
  {
    if es == [] {
      assert DisconnectAll(s, es) == s;
    } else {
      DisconnectOneOwn(s, es[0]);
      DisconnectOneGuarded(s, es[0]);
      DisconnectAllGuarded(DisconnectOne(s, es[0]), es[1..]);
    }
  }

  lemma FiredGuarded(s: State, h: nat)
    requires OwnTimers(s) && Guarded(s) && h in s.timers
    ensures Guarded(Fired(s, h))
  {
    var s' := Fired(s, h);
    forall e | e in s'.inflight && s'.inflight[e].Some?
      ensures IsGrace(s', s'.inflight[e].value, e) || CallbackRuns(s', e)
    {
      if CallbackRuns(s, e) {
        SameCallbacks(s, s', e);
      } else if s.inflight[e].value == h {
        assert Reading(e) in s'.awaits && OfCallback(Reading(e));
      }
    }
  }

  lemma CommittedGuarded(s: State, a: Await)
    requires Guarded(s) && a in s.awaits && IsOperation(a) && a.e in s.db
    ensures Guarded(Committed(s, a))
  {
    var s' := Committed(s, a);
    var a' := if a.Writing? then Wrote(a.e) else if a.Reading? then ReadBack(a.e, s.db[a.e]) else FailDone(a.e);
    assert a' in s'.awaits;
    CommittedFrame(s, a);
    forall e | e in s'.inflight && s'.inflight[e].Some?
      ensures IsGrace(s', s'.inflight[e].value, e) || CallbackRuns(s', e)
    {
      if !IsGrace(s, s.inflight[e].value, e) {
        CallbackMoves(s, s', e, a, a');
      }
    }
  }

  lemma CallbackMoves(s: State, s': State, e: Id, a: Await, a': Await)
    requires CallbackRuns(s, e) && a' in s'.awaits && a'.e == a.e && (OfCallback(a) ==> OfCallback(a'))
    requires forall x :: x in s.awaits && x != a ==> x in s'.awaits
    ensures CallbackRuns(s', e)
  {
    var x :| x in s.awaits && OfCallback(x) && x.e == e;
    assert if x == a then a' in s'.awaits && OfCallback(a') else x in s'.awaits;
  }

  lemma ResumedGuarded(s: State, a: Await)
    requires OwnTimers(s) && Guarded(s) && a in s.awaits && !IsOperation(a)
    ensures Guarded(Resumed(s, a))
  {
    if a.ReadBack? && !JobMachine.Final(a.st) {
      ReadBackGuarded(s, a);
    } else if a.Appending? {
      AppendedGuarded(s, a);
    } else {
      StaysGuarded(s, Resumed(s, a));
    }
  }

  lemma ReadBackGuarded(s: State, a: Await)
    requires Guarded(s) && a in s.awaits && a.ReadBack? && !JobMachine.Final(a.st)
    ensures Guarded(Resumed(s, a))
  {
    var s' := Resumed(s, a);
    assert s'.awaits == s.awaits - multiset{a} + multiset{Failing(a.e)};
    forall e | e in s'.inflight && s'.inflight[e].Some?
      ensures IsGrace(s', s'.inflight[e].value, e) || CallbackRuns(s', e)
    {
      if !IsGrace(s, s.inflight[e].value, e) {
        CallbackMoves(s, s', e, a, Failing(a.e));
      }
    }
  }

  lemma RecordGuarded(s: State, e: Id, st: Status)
    requires Guarded(s) && forall h :: h in s.timers ==> h < s.nextTimer
    ensures Guarded(Record(s, e, st))
  {
    StaysGuarded(s, Record(s, e, st));
  }

  lemma PopGuarded(s: State, a: Await)
    requires Guarded(s) && !OfCallback(a)
    ensures Guarded(Pop(s, a))
  {
    StaysGuarded(s, Pop(s, a));
  }

  lemma AppendedGuarded(s: State, a: Await)
    requires OwnTimers(s) && Guarded(s) && a in s.awaits && a.Appending?
    ensures Guarded(Resumed(s, a))
  {
    PopGuarded(s, a);
    if a.completion.Some? {
      RecordGuarded(Pop(s, a), a.e, a.completion.value);
    }
    hide Guarded, Record;
  }

  lemma CancelGuarded(s: State, e: Id)
    requires OwnTimers(s) && Guarded(s) && e in s.inflight
    ensures Guarded(CancelTimer(s, e))
  {
    StaysGuarded(s, CancelTimer(s, e));
  }

  lemma OutputGuarded(s: State, e: Id, text: bool, completion: Option<Status>)
    requires OwnTimers(s) && Guarded(s) && e in s.inflight && e in s.dispatched
    ensures Guarded(Output(s, e, text, completion))
  {
    CancelGuarded(s, e);
    var s0 := CancelTimer(s, e);
    var s1 := s0.(announced := if completion.Some? then s0.announced + {e} else s0.announced);
    assert forall h :: h in s1.timers ==> h < s1.nextTimer;
    hide CancelTimer;
    StaysGuarded(s0, s1);
    StaysGuarded(s1, Push(s1, Appending(e, completion)));
    if completion.Some? {
      RecordGuarded(s1, e, completion.value);
    }
    hide Guarded, Record;
  }

  lemma StepGuarded(s: State, step: Step)
    requires Inv(s) && OwnTimers(s) && Guarded(s) && Enabled(s, step)
    ensures Guarded(Next(s, step))
  {
    InFlightDispatched(s);
    if step.Tick? || step.Dispatched? {
      StaysGuarded(s, Next(s, step));
    }
    hide Inv, OwnTimers, Guarded, Fired, Committed, Resumed, Output, DisconnectAll;
    match step
    case AgentGone(es) => DisconnectAllGuarded(s, es);
    case Message(e, text, completion) => OutputGuarded(s, e, text, completion);
    case Dispatched(_) =>
    case Resume(a) => ResumedGuarded(s, a);
    case Tick(_) =>
    case Fire(h) => FiredGuarded(s, h);
    case Commit(a) => CommittedGuarded(s, a);
  }

  lemma {:induction false} RunGuarded(from: State, steps: seq<Step>, s: State)
    requires Inv(from) && OwnTimers(from) && Guarded(from) && Reaches(from, steps, s)
    ensures Guarded(s)
    decreases |steps|
  {
    if steps == [] {
      assert s == from;
    } else {
      StepKeeps(from, steps[0]);
      StepOwn(from, steps[0]);
      StepGuarded(from, steps[0]);
      RunGuarded(Next(from, steps[0]), steps[1..], s);
    }
  }

  lemma GraceDue(s: State)
    requires TimersOk(s)
    ensures forall h :: h in s.timers && s.timers[h].GraceOver? ==> s.timers[h].due <= s.now + 15000
  {
  }

  lemma GuardedMeans(s: State, e: Id)
    requires Guarded(s) && e in s.inflight && s.inflight[e].Some?
    ensures || IsGrace(s, s.inflight[e].value, e)
            || Reading(e) in s.awaits || (exists st :: ReadBack(e, st) in s.awaits)
            || Failing(e) in s.awaits || FailDone(e) in s.awaits
  {
    if !IsGrace(s, s.inflight[e].value, e) {
      var a :| a in s.awaits && OfCallback(a) && a.e == e;
      assert a.ReadBack? ==> a == ReadBack(e, a.st);
    }
  }

  /** No execution waits for ever: an entry that names a timer has that grace timer running, due within 15
      seconds, or the callback that settles the execution is under way. */
  lemma GraceComesToAnEnd(steps: seq<Step>, s: State, e: Id)
    requires Reaches(START, steps, s) && e in s.inflight && s.inflight[e].Some?
    ensures || (exists h :: h in s.timers && s.timers[h].GraceOver? && s.timers[h].e == e
                            && s.timers[h].due <= s.now + 15000)
            || Reading(e) in s.awaits || (exists st :: ReadBack(e, st) in s.awaits)
            || Failing(e) in s.awaits || FailDone(e) in s.awaits
  {
    RunKeeps(START, steps, s);
    RunGuarded(START, steps, s);
    GraceDue(s);
    GuardedMeans(s, e);
    hide Inv, OwnTimers, Reaches, Guarded;
  }
}
