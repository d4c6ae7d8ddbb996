/** The orchestrator's bookkeeping of executions in flight, updated in place by its handlers; each
    handler is proved against the steps of Disconnect. */
module DisconnectTracker {
  import opened Wrappers
  import opened JobMachine
  import opened Disconnect

  class Tracker {
    var now: nat
    var inflight: map<Id, Option<nat>>
    var completed: set<Id>
    var timers: map<nat, Timer>
    var nextTimer: nat
    var db: map<Id, Status>
    var awaits: multiset<Await>
    ghost var dispatched: set<Id>
    ghost var announced: set<Id>
    ghost var result: map<Id, Status>

    ghost function View(): State
      reads this
    {
      State(now, inflight, completed, timers, nextTimer, db, awaits, dispatched, announced, result)
    }

    constructor ()
      ensures View() == START
    {
      now, inflight, completed, timers, nextTimer, db, awaits := 0, map[], {}, map[], 0, map[], multiset{};
      dispatched, announced, result := {}, {}, map[];
    }

    method Suspend(a: Await)
      modifies this`awaits
      ensures View() == Push(old(View()), a)
    {
      awaits := awaits + multiset{a};
    }

    method StartTimer(t: Timer) returns (handle: nat)
      modifies this`timers, this`nextTimer
      ensures View() == SetTimer(old(View()), t) && handle == old(nextTimer)
    {
      handle := nextTimer;
      timers, nextTimer := timers[nextTimer := t], nextTimer + 1;
    }

    method HandleCommandOutput(e: Id, text: bool, completion: Option<Status>)
      requires e in inflight
      modifies this
      ensures View() == Output(old(View()), e, text, completion)
    {
      if inflight[e].Some? {
        timers := timers - {inflight[e].value};
        inflight := inflight[e := None];
      }
      if completion.Some? {
        announced := announced + {e};
      }
      if text {
        Suspend(Appending(e, completion));
      } else {
        OutputAppended(e, completion);
      }
    }

    method OutputAppended(e: Id, completion: Option<Status>)
      modifies this
      ensures View() == Appended(old(View()), e, completion)
    {
      if completion.Some? {
        completed := completed + {e};
        result := result[e := completion.value];
        var _ := StartTimer(Forget(e, now + COMPLETED_MEMORY_MS));
        Suspend(Writing(e, completion.value));
      }
    }

    /** `toFail` are the machine's executions in flight, in the map's order. */
    method HandleAgentDisconnect(toFail: seq<Id>)
      modifies this
      ensures View() == DisconnectAll(old(View()), toFail)
    {
      for i := 0 to |toFail|
        invariant DisconnectAll(View(), toFail[i..]) == DisconnectAll(old(View()), toFail)
      {
        var e := toFail[i];
        assert toFail[i..][1..] == toFail[i + 1..];
        ghost var before := View();
        if e in inflight && inflight[e].None? {
          if e in completed {
            inflight := inflight - {e};
          } else {
            var handle := StartTimer(GraceOver(e, now + DISCONNECT_GRACE_MS));
            inflight := inflight[e := Some(handle)];
          }
        }
        assert View() == DisconnectOne(before, e);
      }
    }

    method TimerFired(h: nat)
      requires h in timers
      modifies this
      ensures View() == Fired(old(View()), h)
    {
      var t := timers[h];
      timers := timers - {h};
      match t {
        case Forget(e, _) => completed := completed - {e};
        case GraceOver(e, _) =>
          if e in completed {
            inflight := inflight - {e};
          } else {
            Suspend(Reading(e));
          }
      }
    }

    method CommitOperation(a: Await)
      requires a in awaits && IsOperation(a) && a.e in db
      modifies this
      ensures View() == Committed(old(View()), a)
    {
      awaits := awaits - multiset{a};
      match a {
        case Writing(e, st) =>
          db := db[e := st];
          Suspend(Wrote(e));
        case Reading(e) => Suspend(ReadBack(e, db[e]));
        case Failing(e) =>
          db := db[e := Failed];
          Suspend(FailDone(e));
      }
    }

    method Continue(a: Await)
      requires a in awaits && !IsOperation(a)
      modifies this
      ensures View() == Resumed(old(View()), a)
    {
      awaits := awaits - multiset{a};
      match a {
        case Appending(e, completion) => OutputAppended(e, completion);
        case Wrote(e) => inflight := inflight - {e};
        case ReadBack(e, st) =>
          if Final(st) {
            inflight := inflight - {e};
          } else {
            Suspend(Failing(e));
          }
        case FailDone(e) => inflight := inflight - {e};
      }
    }

    method Perform(step: Disconnect.Step)
      requires Disconnect.Enabled(View(), step)
      modifies this
      ensures View() == Disconnect.Next(old(View()), step)
    {
      match step {
        case Tick(ms) => now := now + ms;
        case Dispatched(e) =>
          inflight := inflight[e := None];
          dispatched := dispatched + {e};
          db := db[e := Running];
        case Message(e, text, completion) => HandleCommandOutput(e, text, completion);
        case AgentGone(es) => HandleAgentDisconnect(es);
        case Fire(h) => TimerFired(h);
        case Commit(a) => CommitOperation(a);
        case Resume(a) => Continue(a);
      }
    }

    /** Whatever the environment delivers, the object moves along a run of the machine. */
    method Drive(steps: seq<Disconnect.Step>)
      requires Deliverable(View(), steps)
      modifies this
      ensures Disconnect.Reaches(old(View()), steps, View())
    {
      for i := 0 to |steps|
        invariant Deliverable(View(), steps[i..])
        invariant forall s :: Disconnect.Reaches(View(), steps[i..], s) ==> Disconnect.Reaches(old(View()), steps, s)
      {
        assert steps[i..][0] == steps[i] && steps[i..][1..] == steps[i + 1..];
        Perform(steps[i]);
      }
    }
  }
}
