/** What the orchestrator does when an agent disconnects: a 15 s grace timer per execution in
    flight, results that may still arrive, and a 60 s memory of recorded completions. Shows when a
    recorded result is final. Timers fire in the order of their due times. */
module Disconnect {
  import opened Wrappers
  import opened JobMachine

  const DISCONNECT_GRACE_MS: nat := 15000
  const COMPLETED_MEMORY_MS: nat := 60000

  datatype Timer = GraceOver(e: Id, due: nat) | Forget(e: Id, due: nat)

  /** Outstanding awaits: appended output that may carry a completion, the status write of a
      completion, and the read and the write of a grace timer's callback. */
  datatype Await =
    | Appending(e: Id, completion: Option<Status>)
    | Writing(e: Id, st: Status)
    | Wrote(e: Id)
    | Reading(e: Id)
    | ReadBack(e: Id, st: Status)
    | Failing(e: Id)
    | FailDone(e: Id)

  /** `inflight` maps an execution to its disconnect timer, if any. `dispatched`, `announced` and
      `result` only record the past: dispatches, completion messages, and the status handed to the
      status write. */
  datatype State = State(
    now: nat,
    inflight: map<Id, Option<nat>>,
    completed: set<Id>,
    timers: map<nat, Timer>,
    nextTimer: nat,
    db: map<Id, Status>,
    awaits: multiset<Await>,
    dispatched: set<Id>,
    announced: set<Id>,
    result: map<Id, Status>)

  const START := State(0, map[], {}, map[], 0, map[], multiset{}, {}, {}, map[])

  function Push(s: State, a: Await): State { s.(awaits := s.awaits + multiset{a}) }
  function Pop(s: State, a: Await): State { s.(awaits := s.awaits - multiset{a}) }

  function SetTimer(s: State, t: Timer): State {
    s.(timers := s.timers[s.nextTimer := t], nextTimer := s.nextTimer + 1)
  }

  // --- handleCommandOutput ---

  /** The entry's timer is cancelled and forgotten before anything else. */
  function CancelTimer(s: State, e: Id): State
    requires e in s.inflight
  {
    match s.inflight[e]
    case None => s
    case Some(h) => s.(timers := s.timers - {h}, inflight := s.inflight[e := None])
  }

  /** The completion part. The cancelled entry holds no timer any more, so the second
      `clearTimeout` of the program never has one to clear. */
  function Record(s: State, e: Id, st: Status): State {
    var s1 := s.(completed := s.completed + {e}, result := s.result[e := st]);
    Push(SetTimer(s1, Forget(e, s.now + COMPLETED_MEMORY_MS)), Writing(e, st))
  }

  function Appended(s: State, e: Id, completion: Option<Status>): State {
    match completion
    case None => s
    case Some(st) => Record(s, e, st)
  }

  function Output(s: State, e: Id, text: bool, completion: Option<Status>): State
    requires e in s.inflight
  {
    var s1 := CancelTimer(s, e).(announced := if completion.Some? then s.announced + {e} else s.announced);
    if text then Push(s1, Appending(e, completion)) else Appended(s1, e, completion)
  }

  // --- handleAgentDisconnect ---

  function DisconnectOne(s: State, e: Id): State {
    if e !in s.inflight || s.inflight[e].Some? then s
    else if e in s.completed then s.(inflight := s.inflight - {e})
    else
      var s1 := SetTimer(s, GraceOver(e, s.now + DISCONNECT_GRACE_MS));
      s1.(inflight := s1.inflight[e := Some(s.nextTimer)])
  }

  function DisconnectAll(s: State, es: seq<Id>): State
    decreases |es|
  {
    if es == [] then s else DisconnectAll(DisconnectOne(s, es[0]), es[1..])
  }

  function Fired(s: State, h: nat): State
    requires h in s.timers
  {
    var s1 := s.(timers := s.timers - {h});
    match s.timers[h]
    case Forget(e, _) => s1.(completed := s1.completed - {e})
    case GraceOver(e, _) =>
      if e in s.completed then s1.(inflight := s1.inflight - {e}) else Push(s1, Reading(e))
  }

  // --- awaits ---

  /** The database carries out a write, or answers a read. */
  predicate IsOperation(a: Await) { a.Writing? || a.Reading? || a.Failing? }

  function Committed(s: State, a: Await): State
    requires IsOperation(a) && a.e in s.db
  {
    var s1 := Pop(s, a);
    match a
    case Writing(e, st) => Push(s1.(db := s1.db[e := st]), Wrote(e))
    case Reading(e) => Push(s1, ReadBack(e, s1.db[e]))
    case Failing(e) => Push(s1.(db := s1.db[e := Failed]), FailDone(e))
  }

  function Resumed(s: State, a: Await): State
    requires !IsOperation(a)
  {
    var s1 := Pop(s, a);
    match a
    case Appending(e, completion) => Appended(s1, e, completion)
    case Wrote(e) => s1.(inflight := s1.inflight - {e})
    case ReadBack(e, st) => if Final(st) then s1.(inflight := s1.inflight - {e}) else Push(s1, Failing(e))
    case FailDone(e) => s1.(inflight := s1.inflight - {e})
  }

  datatype Step =
    | Tick(ms: nat)
    | Dispatched(e: Id)
    | Message(e: Id, text: bool, completion: Option<Status>)
    | AgentGone(es: seq<Id>)
    | Fire(h: nat)
    | Commit(a: Await)
    | Resume(a: Await)

  /** Each execution is put in flight once and completes once; timers fire when due and in due
      order; a completion's status write takes less time than the completion is remembered. */
  ghost predicate Enabled(s: State, step: Step) {
    match step
    case Tick(_) => true
    case Dispatched(e) => e !in s.dispatched
    case Message(e, _, completion) =>
      && e in s.inflight
      && (completion.Some? ==> Final(completion.value) && e !in s.announced)
    case AgentGone(_) => true
    case Fire(h) =>
      && h in s.timers && s.timers[h].due <= s.now
      && (forall k :: k in s.timers ==> s.timers[h].due <= s.timers[k].due)
      && (s.timers[h].Forget? ==>
            (forall st :: Writing(s.timers[h].e, st) !in s.awaits) && Wrote(s.timers[h].e) !in s.awaits)
    case Commit(a) => a in s.awaits && IsOperation(a) && a.e in s.db
    case Resume(a) => a in s.awaits && !IsOperation(a)
  }

  function Next(s: State, step: Step): State
    requires Enabled(s, step)
  {
    match step
    case Tick(ms) => s.(now := s.now + ms)
    case Dispatched(e) =>
      s.(inflight := s.inflight[e := None], dispatched := s.dispatched + {e}, db := s.db[e := Running])
    case Message(e, text, completion) => Output(s, e, text, completion)
    case AgentGone(es) => DisconnectAll(s, es)
    case Fire(h) => Fired(s, h)
    case Commit(a) => Committed(s, a)
    case Resume(a) => Resumed(s, a)
  }

  ghost predicate Reaches(from: State, steps: seq<Step>, s: State)
    decreases |steps|
  {
    if steps == [] then s == from
    else Enabled(from, steps[0]) && Reaches(Next(from, steps[0]), steps[1..], s)
  }

  /** The environment can deliver these steps, one after the other. */
  ghost predicate Deliverable(s: State, steps: seq<Step>)
    decreases |steps|
  {
    steps != [] ==> Enabled(s, steps[0]) && Deliverable(Next(s, steps[0]), steps[1..])
  }

  // --- the invariant ---

  ghost predicate Busy(s: State, e: Id) {
    (exists st :: Writing(e, st) in s.awaits) || Wrote(e) in s.awaits
  }

  ghost predicate TimersOk(s: State) {
    && (forall h :: h in s.timers ==>
          && h < s.nextTimer
          && s.timers[h].e in s.dispatched
          && (s.timers[h].GraceOver? ==> s.timers[h].due <= s.now + DISCONNECT_GRACE_MS))
    && (forall e :: e in s.inflight && s.inflight[e].Some? ==>
          && s.inflight[e].value < s.nextTimer
          && (s.inflight[e].value in s.timers ==> s.timers[s.inflight[e].value].GraceOver?))
  }

  /** A completion still waiting behind its output. */
  predicate Completes(a: Await) { a.Appending? && a.completion.Some? }

  ghost predicate AwaitOk(s: State, a: Await) {
    && a.e in s.dispatched
    && (Completes(a) ==>
          Final(a.completion.value) && s.awaits[a] == 1 && a.e in s.announced && a.e !in s.result)
    && (a.Writing? ==> a.e in s.result && a.st == s.result[a.e] && s.awaits[a] == 1)
  }

  ghost predicate AwaitsOk(s: State) {
    && (forall a :: a in s.awaits ==> AwaitOk(s, a))
    && (forall a, b :: a in s.awaits && b in s.awaits && Completes(a) && Completes(b) && a.e == b.e ==> a == b)
  }

  ghost predicate RecordsOk(s: State) {
    && s.result.Keys <= s.announced <= s.dispatched == s.db.Keys
    && s.inflight.Keys <= s.dispatched
    && s.completed <= s.result.Keys
    && (forall e :: e in s.result ==> Final(s.result[e]))
    && (forall e :: e in s.result && e in s.inflight ==> Busy(s, e))
  }

  ghost predicate RemembersUntil(s: State, e: Id, f: nat) {
    && f in s.timers && s.timers[f].Forget? && s.timers[f].e == e
    && (forall h :: h in s.timers && s.timers[h].e == e && h != f ==>
          s.timers[h].GraceOver? && s.timers[h].due < s.timers[f].due)
  }

  /** A recorded completion is remembered for longer than any grace timer of the execution runs;
      once it is forgotten there is no such timer and the execution is no longer in flight. */
  ghost predicate MemoryOk(s: State) {
    && (forall e :: e in s.completed ==> exists f :: RemembersUntil(s, e, f))
    && (forall e :: e in s.result && e !in s.completed ==> e !in s.inflight)
    && (forall h :: h in s.timers && s.timers[h].e in s.result ==> s.timers[h].e in s.completed)
    && (forall h :: h in s.timers && s.timers[h].Forget? ==> s.timers[h].e in s.completed)
  }

  ghost predicate Inv(s: State) { TimersOk(s) && AwaitsOk(s) && RecordsOk(s) && MemoryOk(s) }

  // --- every step keeps it ---

  lemma PushKeeps(s: State, a: Await)
    requires Inv(s) && a.e in s.dispatched && !a.Writing? && !Completes(a)
    ensures Inv(Push(s, a))
  {
    var s' := Push(s, a);
    assert forall x :: x in s'.awaits ==> x == a || x in s.awaits;
    forall x | x in s'.awaits ensures AwaitOk(s', x) {
      assert x == a || AwaitOk(s, x);
    }
    forall e | e in s'.result && e in s'.inflight ensures Busy(s', e) {
      BusyFrame(s, s', e);
    }
    MemoryFrame(s, s');
  }

  lemma BusyFrame(s: State, s': State, e: Id)
    requires Busy(s, e) && forall x: Await :: x.e == e && x in s.awaits && (x.Writing? || x.Wrote?) ==> x in s'.awaits
    ensures Busy(s', e)
  {
    if Wrote(e) !in s.awaits {
      var st :| Writing(e, st) in s.awaits;
      assert Writing(e, st) in s'.awaits;
    }
  }

  lemma MemoryFrame(s: State, s': State)
    requires MemoryOk(s)
    requires s'.completed == s.completed && s'.timers == s.timers && s'.result == s.result
    requires s'.inflight.Keys <= s.inflight.Keys
    ensures MemoryOk(s')
  {
    forall e | e in s'.completed ensures exists f :: RemembersUntil(s', e, f) {
      var f :| RemembersUntil(s, e, f);
      assert RemembersUntil(s', e, f);
    }
  }

  /** Taking off an await whose part in the bookkeeping is over. */
  lemma PopKeeps(s: State, a: Await)
    requires Inv(s) && a in s.awaits
    requires (a.Writing? || a.Wrote?) ==> a.e !in s.inflight
    ensures Inv(Pop(s, a))
  {
    var s' := Pop(s, a);
    assert forall x :: x in s'.awaits ==> x in s.awaits;
    forall x | x in s'.awaits ensures AwaitOk(s', x) {
      assert AwaitOk(s, x);
    }
    forall e | e in s'.result && e in s'.inflight ensures Busy(s', e) {
      BusyFrame(s, s', e);
    }
    MemoryFrame(s, s');
  }

  lemma DropKeeps(s: State, e: Id)
    requires Inv(s)
    ensures Inv(s.(inflight := s.inflight - {e}))
  {
    var s' := s.(inflight := s.inflight - {e});
    forall x | x in s'.awaits ensures AwaitOk(s', x) {
      assert AwaitOk(s, x);
    }
    forall x | x in s'.result && x in s'.inflight ensures Busy(s', x) {
      BusyFrame(s, s', x);
    }
    MemoryFrame(s, s');
  }

  lemma CancelKeeps(s: State, e: Id)
    requires Inv(s) && e in s.inflight
    ensures Inv(CancelTimer(s, e))
  {
    var s' := CancelTimer(s, e);
    if s.inflight[e].Some? {
      forall x | x in s'.awaits ensures AwaitOk(s', x) {
        assert AwaitOk(s, x);
      }
      forall x | x in s'.result && x in s'.inflight ensures Busy(s', x) {
        BusyFrame(s, s', x);
      }
      forall x | x in s'.completed ensures exists f :: RemembersUntil(s', x, f) {
        var f :| RemembersUntil(s, x, f);
        assert RemembersUntil(s', x, f);
      }
    }
  }

  /** The completion is recorded: the memory of it outlasts every grace timer already running. */
  lemma RecordKeeps(s: State, e: Id, st: Status)
    requires Inv(s) && e in s.announced && e !in s.result && Final(st)
    requires forall a :: a in s.awaits && Completes(a) ==> a.e != e
    ensures Inv(Record(s, e, st))
  {
    RecordMemory(s, e, st);
    RecordAwaits(s, e, st);
    RecordBusy(s, e, st);
    hide MemoryOk, AwaitsOk, Busy;
  }

  lemma RecordAwaits(s: State, e: Id, st: Status)
    requires AwaitsOk(s) && RecordsOk(s) && e in s.announced && e !in s.result && Final(st)
    requires forall a :: a in s.awaits && Completes(a) ==> a.e != e
    ensures AwaitsOk(Record(s, e, st))
  {
    var s' := Record(s, e, st);
    assert forall x :: x in s'.awaits ==> x == Writing(e, st) || x in s.awaits;
    forall x | x in s'.awaits ensures AwaitOk(s', x) {
      assert x == Writing(e, st) || AwaitOk(s, x);
    }
  }

  lemma RecordBusy(s: State, e: Id, st: Status)
    requires RecordsOk(s) && e !in s.result
    ensures forall x :: x in Record(s, e, st).result && x in s.inflight ==> Busy(Record(s, e, st), x)
  {
    var s' := Record(s, e, st);
    assert Writing(e, st) in s'.awaits;
    forall x | x in s'.result && x in s.inflight && x != e ensures Busy(s', x) {
      BusyFrame(s, s', x);
    }
  }

  lemma RecordMemory(s: State, e: Id, st: Status)
    requires TimersOk(s) && MemoryOk(s) && e !in s.result && s.completed <= s.result.Keys
    ensures MemoryOk(Record(s, e, st))
  {
    var s' := Record(s, e, st);
    forall x | x in s'.completed ensures exists f :: RemembersUntil(s', x, f) {
      if x == e {
        assert RemembersUntil(s', e, s.nextTimer);
      } else {
        var f :| RemembersUntil(s, x, f);
        assert RemembersUntil(s', x, f);
      }
    }
  }

  lemma OutputKeeps(s: State, e: Id, text: bool, completion: Option<Status>)
    requires Inv(s) && Enabled(s, Message(e, text, completion))
    ensures Inv(Output(s, e, text, completion))
  {
    CancelKeeps(s, e);
    var s0 := CancelTimer(s, e);
    var s1 := s0.(announced := if completion.Some? then s0.announced + {e} else s0.announced);
    AnnounceKeeps(s0, s1);
    assert forall a :: a in s1.awaits && Completes(a) && completion.Some? ==> AwaitOk(s0, a) && a.e != e;
    if text {
      if completion.Some? {
        PushCompletion(s1, e, completion.value);
      } else {
        PushKeeps(s1, Appending(e, completion));
      }
    } else if completion.Some? {
      RecordKeeps(s1, e, completion.value);
    }
  }

  lemma AnnounceKeeps(s: State, s': State)
    requires Inv(s) && s' == s.(announced := s'.announced) && s.announced <= s'.announced <= s.dispatched
    ensures Inv(s')
  {
    forall x | x in s'.awaits ensures AwaitOk(s', x) {
      assert AwaitOk(s, x);
    }
    forall x | x in s'.result && x in s'.inflight ensures Busy(s', x) {
      BusyFrame(s, s', x);
    }
    MemoryFrame(s, s');
  }

  lemma PushCompletion(s: State, e: Id, st: Status)
    requires Inv(s) && e in s.announced && e !in s.result && Final(st)
    requires forall a :: a in s.awaits && Completes(a) ==> a.e != e
    ensures Inv(Push(s, Appending(e, Some(st))))
  {
    var a := Appending(e, Some(st));
    var s' := Push(s, a);
    assert forall x :: x in s'.awaits ==> x == a || x in s.awaits;
    forall x | x in s'.awaits ensures AwaitOk(s', x) {
      assert x == a || AwaitOk(s, x);
    }
    forall x | x in s'.result && x in s'.inflight ensures Busy(s', x) {
      BusyFrame(s, s', x);
    }
    MemoryFrame(s, s');
  }

  lemma GraceKeeps(s: State, e: Id)
    requires Inv(s) && e in s.inflight && e !in s.completed
    ensures Inv(SetTimer(s, GraceOver(e, s.now + DISCONNECT_GRACE_MS)).(inflight := s.inflight[e := Some(s.nextTimer)]))
  {
    var s' := SetTimer(s, GraceOver(e, s.now + DISCONNECT_GRACE_MS)).(inflight := s.inflight[e := Some(s.nextTimer)]);
    forall x | x in s'.completed ensures exists f :: RemembersUntil(s', x, f) {
      var f :| RemembersUntil(s, x, f);
      assert RemembersUntil(s', x, f);
    }
    TimersFrame(s, s');
    hide RemembersUntil, AwaitsOk, RecordsOk;
  }

  /** Timers do not matter to the awaits and the records. */
  lemma TimersFrame(s: State, s': State)
    requires AwaitsOk(s) && RecordsOk(s)
    requires s' == s.(timers := s'.timers, nextTimer := s'.nextTimer, inflight := s'.inflight, completed := s'.completed)
    requires s'.inflight.Keys <= s.inflight.Keys && s'.completed <= s.completed
    ensures AwaitsOk(s') && RecordsOk(s')
  {
    forall x | x in s'.awaits ensures AwaitOk(s', x) {
      assert AwaitOk(s, x);
    }
    forall x | x in s'.result && x in s'.inflight ensures Busy(s', x) {
      BusyFrame(s, s', x);
    }
  }

  lemma DisconnectOneKeeps(s: State, e: Id)
    requires Inv(s)
    ensures Inv(DisconnectOne(s, e))
  {
    if e in s.inflight && s.inflight[e].None? {
      if e in s.completed {
        DropKeeps(s, e);
      } else {
        GraceKeeps(s, e);
        assert DisconnectOne(s, e)
            == SetTimer(s, GraceOver(e, s.now + DISCONNECT_GRACE_MS)).(inflight := s.inflight[e := Some(s.nextTimer)]);
      }
    }
  }

  lemma {:induction false} DisconnectKeeps(s: State, es: seq<Id>)
    requires Inv(s)
    ensures Inv(DisconnectAll(s, es))
    decreases |es|
  {
    if es == [] {
    } else {
      DisconnectOneKeeps(s, es[0]);
      DisconnectKeeps(DisconnectOne(s, es[0]), es[1..]);
    }
  }

  lemma {:induction false} DisconnectFrame(s: State, es: seq<Id>)
    ensures var s' := DisconnectAll(s, es);
            s'.awaits == s.awaits && s'.db == s.db && s'.result == s.result
    decreases |es|
  {
    if es == [] {
    } else {
      DisconnectFrame(DisconnectOne(s, es[0]), es[1..]);
    }
  }

  lemma RemoveTimerKeeps(s: State, h: nat)
    requires Inv(s) && h in s.timers && s.timers[h].GraceOver?
    ensures Inv(s.(timers := s.timers - {h}))
  {
    var s' := s.(timers := s.timers - {h});
    forall x | x in s'.awaits ensures AwaitOk(s', x) {
      assert AwaitOk(s, x);
    }
    forall x | x in s'.result && x in s'.inflight ensures Busy(s', x) {
      BusyFrame(s, s', x);
    }
    forall x | x in s'.completed ensures exists f :: RemembersUntil(s', x, f) {
      var f :| RemembersUntil(s, x, f);
      assert RemembersUntil(s', x, f);
    }
  }

  /** When the memory goes, every grace timer of the execution went before, and it is not in flight. */
  lemma ForgetKeeps(s: State, h: nat)
    requires Inv(s) && Enabled(s, Fire(h)) && s.timers[h].Forget?
    ensures Inv(Fired(s, h))
  {
    ForgetMemory(s, h);
    TimersFrame(s, Fired(s, h));
    hide MemoryOk, AwaitsOk, RecordsOk;
  }

  lemma ForgottenIsOut(s: State, h: nat)
    requires RecordsOk(s) && MemoryOk(s) && Enabled(s, Fire(h)) && s.timers[h].Forget?
    ensures s.timers[h].e !in s.inflight
  {
    assert s.timers[h].e in s.completed;
  }

  lemma LastTimer(s: State, h: nat)
    requires MemoryOk(s) && Enabled(s, Fire(h)) && s.timers[h].Forget?
    ensures forall k :: k in s.timers && k != h ==> s.timers[k].e != s.timers[h].e
  {
    var f :| RemembersUntil(s, s.timers[h].e, f);
    assert f == h;
  }

  /** When an execution is forgotten, no other timer of it is left and it is no longer in flight. */
  lemma ForgetMemory(s: State, h: nat)
    requires RecordsOk(s) && MemoryOk(s) && Enabled(s, Fire(h)) && s.timers[h].Forget?
    ensures MemoryOk(Fired(s, h))
  {
    var e := s.timers[h].e;
    var s' := Fired(s, h);
    ForgottenIsOut(s, h);
    LastTimer(s, h);
    hide RecordsOk, Busy, Enabled;
    assert forall k :: k in s'.timers ==> s'.timers[k].e != e;
    forall x | x in s'.completed ensures exists g :: RemembersUntil(s', x, g) {
      var g :| RemembersUntil(s, x, g);
      assert RemembersUntil(s', x, g);
    }
  }

  lemma FiredKeeps(s: State, h: nat)
    requires Inv(s) && Enabled(s, Fire(h))
    ensures Inv(Fired(s, h))
  {
    if s.timers[h].Forget? {
      ForgetKeeps(s, h);
    } else {
      RemoveTimerKeeps(s, h);
      var s1 := s.(timers := s.timers - {h});
      if s.timers[h].e in s.completed {
        DropKeeps(s1, s.timers[h].e);
      } else {
        PushKeeps(s1, Reading(s.timers[h].e));
      }
    }
  }

  lemma SetDbKeeps(s: State, e: Id, st: Status)
    requires Inv(s) && e in s.db
    ensures Inv(s.(db := s.db[e := st]))
  {
    var s' := s.(db := s.db[e := st]);
    forall x | x in s'.awaits ensures AwaitOk(s', x) {
      assert AwaitOk(s, x);
    }
    forall x | x in s'.result && x in s'.inflight ensures Busy(s', x) {
      BusyFrame(s, s', x);
    }
    MemoryFrame(s, s');
  }

  lemma PopWritingKeeps(s: State, e: Id, st: Status)
    requires Inv(s) && Writing(e, st) in s.awaits && Wrote(e) in s.awaits
    ensures Inv(Pop(s, Writing(e, st)))
  {
    var s' := Pop(s, Writing(e, st));
    assert forall x :: x in s'.awaits ==> x in s.awaits;
    assert Wrote(e) in s'.awaits;
    forall x | x in s'.awaits ensures AwaitOk(s', x) {
      assert AwaitOk(s, x);
    }
    forall x | x in s'.result && x in s'.inflight ensures Busy(s', x) {
      if x != e {
        BusyFrame(s, s', x);
      }
    }
    MemoryFrame(s, s');
  }

  lemma WrittenKeeps(s: State, e: Id, st: Status)
    requires Inv(s) && Writing(e, st) in s.awaits && e in s.db
    ensures Inv(Committed(s, Writing(e, st)))
  {
    PushKeeps(s, Wrote(e));
    var s1 := Push(s, Wrote(e));
    PopWritingKeeps(s1, e, st);
    var s2 := Pop(s1, Writing(e, st));
    SetDbKeeps(s2, e, st);
    var s' := Committed(s, Writing(e, st));
    assert s'.awaits == s2.awaits;
    assert s' == s2.(db := s2.db[e := st]);
  }

  lemma CommittedKeeps(s: State, a: Await)
    requires Inv(s) && a in s.awaits && IsOperation(a) && a.e in s.db
    ensures Inv(Committed(s, a))
  {
    match a
    case Writing(e, st) => WrittenKeeps(s, e, st);
    case Reading(e) =>
      PopKeeps(s, a);
      PushKeeps(Pop(s, a), ReadBack(e, s.db[e]));
    case Failing(e) =>
      PopKeeps(s, a);
      SetDbKeeps(Pop(s, a), e, Failed);
      PushKeeps(Pop(s, a).(db := s.db[e := Failed]), FailDone(e));
  }

  lemma AppendedKeeps(s: State, e: Id, completion: Option<Status>)
    requires Inv(s) && Appending(e, completion) in s.awaits
    ensures Inv(Appended(Pop(s, Appending(e, completion)), e, completion))
  {
    var a := Appending(e, completion);
    assert AwaitOk(s, a);
    PopKeeps(s, a);
    if completion.Some? {
      RecordKeeps(Pop(s, a), e, completion.value);
    }
  }

  lemma ResumedKeeps(s: State, a: Await)
    requires Inv(s) && a in s.awaits && !IsOperation(a)
    ensures Inv(Resumed(s, a))
  {
    assert AwaitOk(s, a);
    match a
    case Appending(e, completion) => AppendedKeeps(s, e, completion);
    case Wrote(e) =>
      DropKeeps(s, e);
      PopKeeps(s.(inflight := s.inflight - {e}), a);
      assert Resumed(s, a) == Pop(s.(inflight := s.inflight - {e}), a);
    case ReadBack(e, st) =>
      PopKeeps(s, a);
      DropKeeps(Pop(s, a), e);
      PushKeeps(Pop(s, a), Failing(e));
    case FailDone(e) =>
      PopKeeps(s, a);
      DropKeeps(Pop(s, a), e);
  }

  lemma PutInFlightKeeps(s: State, e: Id)
    requires Inv(s) && e !in s.dispatched
    ensures Inv(Next(s, Dispatched(e)))
  {
    var s' := Next(s, Dispatched(e));
    forall x | x in s'.awaits ensures AwaitOk(s', x) {
      assert AwaitOk(s, x);
    }
    forall x | x in s'.result && x in s'.inflight ensures Busy(s', x) {
      BusyFrame(s, s', x);
    }
    forall x | x in s'.completed ensures exists f :: RemembersUntil(s', x, f) {
      var f :| RemembersUntil(s, x, f);
      assert RemembersUntil(s', x, f);
    }
  }

  lemma StepKeeps(s: State, step: Step)
    requires Inv(s) && Enabled(s, step)
    ensures Inv(Next(s, step))
  {
    match step
    case Tick(ms) =>
      var s' := Next(s, step);
      forall x | x in s'.awaits ensures AwaitOk(s', x) {
        assert AwaitOk(s, x);
      }
      forall x | x in s'.result && x in s'.inflight ensures Busy(s', x) {
        BusyFrame(s, s', x);
      }
      MemoryFrame(s, s');
    case Dispatched(e) => PutInFlightKeeps(s, e);
    case Message(e, text, completion) => OutputKeeps(s, e, text, completion);
    case AgentGone(es) => DisconnectKeeps(s, es);
    case Fire(h) => FiredKeeps(s, h);
    case Commit(a) => CommittedKeeps(s, a);
    case Resume(a) => ResumedKeeps(s, a);
  }

  lemma {:induction false} RunKeeps(from: State, steps: seq<Step>, s: State)
    requires Inv(from) && Reaches(from, steps, s)
    ensures Inv(s)
    decreases |steps|
  {
    if steps == [] {
    } else {
      StepKeeps(from, steps[0]);
      RunKeeps(Next(from, steps[0]), steps[1..], s);
    }
  }

  // --- when a recorded result is final ---

  /** A grace timer's callback is between its check of the memory and its own FAILED write, and the status
      it has read, or would read now, is not final. */
  ghost predicate CallbackUnderway(s: State, e: Id) {
    || Failing(e) in s.awaits
    || (exists st :: ReadBack(e, st) in s.awaits && !Final(st))
    || (Reading(e) in s.awaits && !(e in s.db && Final(s.db[e])))
  }

  /** Recorded while no callback was under way: the stored status is the result, or is about to be. */
  ghost predicate Sealed(s: State, e: Id) {
    && e in s.result
    && !CallbackUnderway(s, e)
    && e in s.db && (Writing(e, s.result[e]) in s.awaits || s.db[e] == s.result[e])
  }

  /** No callback starts for a recorded execution, because the 60 s memory outlasts the 15 s grace. */
  lemma SealedStep(s: State, step: Step, e: Id)
    requires Inv(s) && Sealed(s, e) && Enabled(s, step)
    ensures Sealed(Next(s, step), e) && Next(s, step).result[e] == s.result[e]
    ensures Next(s, step).db[e] == s.db[e] || step == Step.Commit(Writing(e, s.result[e]))
  {
    var s' := Next(s, step);
    match step
    case AgentGone(es) => DisconnectFrame(s, es);
    case Fire(h) =>
    case Commit(a) =>
      assert AwaitOk(s, a);
      SealedCommit(s, a, e);
    case Resume(a) =>
      assert AwaitOk(s, a);
      SealedResume(s, a, e);
    case Message(x, text, completion) => SealedOutput(s, x, text, completion, e);
    case Tick(_) =>
    case Dispatched(x) =>
      assert x != e;
  }

  lemma SealedCommit(s: State, a: Await, e: Id)
    requires Sealed(s, e) && a in s.awaits && IsOperation(a) && a.e in s.db && AwaitOk(s, a) && Final(s.result[e])
    ensures var s' := Committed(s, a);
            Sealed(s', e) && s'.result == s.result && (s'.db[e] == s.db[e] || a == Writing(e, s.result[e]))
  {
    CommittedFrame(s, a);
    assert a.e == e ==> a.Writing? || (a.Reading? && Final(s.db[e]));
    hide Committed, AwaitOk;
  }

  lemma CommittedFrame(s: State, a: Await)
    requires a in s.awaits && IsOperation(a) && a.e in s.db
    ensures var s' := Committed(s, a);
            && s'.result == s.result && s'.db.Keys == s.db.Keys
            && (forall x :: x in s.db && x != a.e ==> s'.db[x] == s.db[x])
            && (a.Writing? ==> s'.db[a.e] == a.st)
            && (forall x :: x in s'.awaits && x.e != a.e ==> x in s.awaits)
            && (a.Writing? ==> forall x :: x in s'.awaits ==> x in s.awaits || x == Wrote(a.e))
            && (a.Reading? ==> s'.db == s.db && forall x :: x in s'.awaits ==> x in s.awaits || x == ReadBack(a.e, s.db[a.e]))
            && (forall x :: x in s.awaits && x != a ==> x in s'.awaits)
  {
    var s', popped := Committed(s, a), Pop(s, a);
    var next := if a.Writing? then Wrote(a.e) else if a.Reading? then ReadBack(a.e, s.db[a.e]) else FailDone(a.e);
    assert s'.awaits == popped.awaits + multiset{next};
    hide Committed;
  }

  lemma SealedResume(s: State, a: Await, e: Id)
    requires Sealed(s, e) && a in s.awaits && !IsOperation(a) && AwaitOk(s, a)
    ensures var s' := Resumed(s, a);
            Sealed(s', e) && s'.result[e] == s.result[e] && s'.db == s.db
  {
    if a.ReadBack? {
      SealedReadBack(s, a.e, a.st, e);
    } else {
      var s' := Resumed(s, a);
      assert forall x :: x in s'.awaits && (x.Reading? || x.ReadBack? || x.Failing?) ==> x in s.awaits;
      assert Writing(e, s.result[e]) in s.awaits ==> Writing(e, s.result[e]) in s'.awaits;
    }
  }

  lemma SealedReadBack(s: State, x: Id, st: Status, e: Id)
    requires Sealed(s, e) && ReadBack(x, st) in s.awaits
    ensures Sealed(Resumed(s, ReadBack(x, st)), e)
  {
    var s' := Resumed(s, ReadBack(x, st));
    assert forall y :: y in s'.awaits ==> y in s.awaits || (y == Failing(x) && !Final(st));
    assert Writing(e, s.result[e]) in s.awaits ==> Writing(e, s.result[e]) in s'.awaits;
  }

  lemma SealedOutput(s: State, x: Id, text: bool, completion: Option<Status>, e: Id)
    requires Inv(s) && Sealed(s, e) && Enabled(s, Message(x, text, completion))
    ensures var s' := Output(s, x, text, completion);
            Sealed(s', e) && s'.result[e] == s.result[e] && s'.db == s.db
  {
    assert completion.Some? ==> x !in s.result;
    OutputFrame(s, x, text, completion);
    hide Output, Inv;
  }

  /** Output starts no part of a callback, and leaves every await and the recorded results in place. */
  lemma OutputFrame(s: State, x: Id, text: bool, completion: Option<Status>)
    requires x in s.inflight && (completion.Some? ==> x !in s.result)
    ensures var s' := Output(s, x, text, completion);
            && (forall y :: y in s'.awaits && (y.Reading? || y.ReadBack? || y.Failing?) ==> y in s.awaits)
            && (forall y :: y in s.awaits ==> y in s'.awaits)
            && s'.db == s.db
            && (forall e :: e in s.result ==> e in s'.result && s'.result[e] == s.result[e])
  {
  }

  /** A recorded completion is final: from a state in which it is recorded and no grace callback for
      it is under way, no run ever changes its status to anything but the recorded result. */
  lemma {:induction false} RecordedIsFinal(from: State, steps: seq<Step>, s: State, e: Id)
    requires Inv(from) && Sealed(from, e) && Reaches(from, steps, s)
    ensures Sealed(s, e) && s.result[e] == from.result[e]
    ensures Writing(e, from.result[e]) !in s.awaits ==> s.db[e] == from.result[e]
    decreases |steps|
  {
    if steps == [] {
    } else {
      StepKeeps(from, steps[0]);
      SealedStep(from, steps[0], e);
      RecordedIsFinal(Next(from, steps[0]), steps[1..], s, e);
    }
  }

  // --- and when it is not ---

  lemma Then(from: State, step: Step, steps: seq<Step>, s: State)
    requires Enabled(from, step) && Reaches(Next(from, step), steps, s)
    ensures Reaches(from, [step] + steps, s)
  {
    assert ([step] + steps)[1..] == steps;
  }

  lemma WriteThenFail(s: State, e: Id, st: Status) returns (steps: seq<Step>, later: State)
    requires Inv(s) && e in s.db && Writing(e, st) in s.awaits && Failing(e) in s.awaits
    ensures Reaches(s, steps, later)
    ensures Writing(e, st) !in later.awaits && e in later.db && later.db[e] == Failed
  {
    var w, f := Step.Commit(Writing(e, st)), Step.Commit(Failing(e));
    assert AwaitOk(s, Writing(e, st));
    var s1 := Next(s, w);
    assert Failing(e) in s1.awaits && Writing(e, st) !in s1.awaits;
    later := Next(s1, f);
    assert Reaches(later, [], later);
    Then(s1, f, [], later);
    Then(s, w, [f] + [], later);
    steps := [w] + ([f] + []);
  }

  lemma ReadThenFail(s: State, e: Id, st: Status, read: Status) returns (steps: seq<Step>, later: State)
    requires Inv(s) && e in s.db && Writing(e, st) in s.awaits && ReadBack(e, read) in s.awaits && !Final(read)
    ensures Reaches(s, steps, later)
    ensures Writing(e, st) !in later.awaits && e in later.db && later.db[e] == Failed
  {
    var r := Step.Resume(ReadBack(e, read));
    StepKeeps(s, r);
    var s1 := Next(s, r);
    assert Failing(e) in s1.awaits && Writing(e, st) in s1.awaits;
    steps, later := WriteThenFail(s1, e, st);
    Then(s, r, steps, later);
    steps := [r] + steps;
  }

  /** A callback under way can overwrite a result that is being recorded. */
  lemma CallbackOverwrites(s: State, e: Id, st: Status) returns (steps: seq<Step>, later: State)
    requires Inv(s) && e in s.db && Writing(e, st) in s.awaits && CallbackUnderway(s, e)
    ensures Reaches(s, steps, later)
    ensures Writing(e, st) !in later.awaits && e in later.db && later.db[e] == Failed
  {
    if Failing(e) in s.awaits {
      steps, later := WriteThenFail(s, e, st);
    } else if Reading(e) in s.awaits && !Final(s.db[e]) {
      var c := Step.Commit(Reading(e));
      StepKeeps(s, c);
      var s1 := Next(s, c);
      assert ReadBack(e, s.db[e]) in s1.awaits && Writing(e, st) in s1.awaits;
      steps, later := ReadThenFail(s1, e, st, s.db[e]);
      Then(s, c, steps, later);
      steps := [c] + steps;
    } else {
      var read :| ReadBack(e, read) in s.awaits && !Final(read);
      steps, later := ReadThenFail(s, e, st, read);
    }
  }

  /** Once its status write is through, the execution is SUCCESS, in every continuation of `s`. */
  ghost predicate Survives(s: State, e: Id) {
    forall steps: seq<Step>, later: State ::
      Reaches(s, steps, later) && Writing(e, Success) !in later.awaits ==> KeptSuccess(later, e)
  }

  predicate KeptSuccess(s: State, e: Id) { e in s.db && s.db[e] == Success }

  /** Exactly when a SUCCESS that is being recorded survives every continuation: when no callback of
      a grace timer for it is about to overwrite it. */
  lemma SuccessSurvivesExactly(before: seq<Step>, s: State, e: Id)
    requires Reaches(START, before, s) && Writing(e, Success) in s.awaits
    ensures Survives(s, e) <==> !CallbackUnderway(s, e)
  {
    RunKeeps(START, before, s);
    assert AwaitOk(s, Writing(e, Success));
    if CallbackUnderway(s, e) {
      var steps, later := CallbackOverwrites(s, e, Success);
      assert !KeptSuccess(later, e);
    } else {
      forall steps: seq<Step>, later: State | Reaches(s, steps, later) && Writing(e, Success) !in later.awaits
        ensures KeptSuccess(later, e)
      {
        RecordedIsFinal(s, steps, later, e);
      }
    }
  }

  // --- a run on which it happens ---

  /** The agent is lost right after the dispatch, the grace period runs out, and the SUCCESS arrives while the
      callback of the timer is reading the status. */
  function LateSuccess(e: Id): seq<Step> {
    [Dispatched(e)] + ([AgentGone([e])] + ([Tick(DISCONNECT_GRACE_MS)] + ([Fire(0)] + ([Message(e, false, Some(Success))] + []))))
  }

  /** The states of that run. */
  function AfterDispatch(e: Id): State { START.(inflight := map[e := None], dispatched := {e}, db := map[e := Running]) }

  function AfterLoss(e: Id): State {
    AfterDispatch(e).(inflight := map[e := Some(0)], timers := map[0 := GraceOver(e, DISCONNECT_GRACE_MS)], nextTimer := 1)
  }

  function AfterGrace(e: Id): State { AfterLoss(e).(now := DISCONNECT_GRACE_MS) }

  function AfterCallback(e: Id): State { AfterGrace(e).(timers := map[], awaits := multiset{Reading(e)}) }

  lemma EarlyStates(e: Id)
    ensures Enabled(START, Dispatched(e)) && Next(START, Dispatched(e)) == AfterDispatch(e)
    ensures Next(AfterDispatch(e), AgentGone([e])) == AfterLoss(e)
    ensures Next(AfterLoss(e), Tick(DISCONNECT_GRACE_MS)) == AfterGrace(e)
  {
    AgentLost(AfterDispatch(e), e);
  }

  lemma CallbackState(e: Id)
    ensures Enabled(AfterGrace(e), Fire(0)) && Next(AfterGrace(e), Fire(0)) == AfterCallback(e)
  {
    var s := AfterGrace(e);
    assert s.timers - {0} == map[];
    assert multiset{} + multiset{Reading(e)} == multiset{Reading(e)};
  }

  lemma SuccessState(e: Id)
    ensures Enabled(AfterCallback(e), Message(e, false, Some(Success)))
    ensures var s := Next(AfterCallback(e), Message(e, false, Some(Success)));
            Writing(e, Success) in s.awaits && CallbackUnderway(s, e)
  {
    var s := Next(AfterCallback(e), Message(e, false, Some(Success)));
    assert Reading(e) in s.awaits && s.db == map[e := Running];
  }

  lemma CallbackReachable(e: Id) returns (s: State)
    ensures Reaches(START, LateSuccess(e), s)
    ensures Writing(e, Success) in s.awaits && CallbackUnderway(s, e)
  {
    EarlyStates(e);
    CallbackState(e);
    SuccessState(e);
    hide Next, CallbackUnderway, AfterDispatch, AfterLoss, AfterGrace, AfterCallback;
    var last := Message(e, false, Some(Success));
    s := Next(AfterCallback(e), last);
    Then(AfterCallback(e), last, [], s);
    Then(AfterGrace(e), Fire(0), [last] + [], s);
    Then(AfterLoss(e), Tick(DISCONNECT_GRACE_MS), [Fire(0)] + ([last] + []), s);
    Then(AfterDispatch(e), AgentGone([e]), [Tick(DISCONNECT_GRACE_MS)] + ([Fire(0)] + ([last] + [])), s);
    Then(START, Dispatched(e), [AgentGone([e])] + ([Tick(DISCONNECT_GRACE_MS)] + ([Fire(0)] + ([last] + []))), s);
  }

  lemma AgentLost(s: State, e: Id)
    requires e in s.inflight && s.inflight[e].None? && e !in s.completed
    ensures Next(s, AgentGone([e]))
         == s.(inflight := s.inflight[e := Some(s.nextTimer)], nextTimer := s.nextTimer + 1,
               timers := s.timers[s.nextTimer := GraceOver(e, s.now + DISCONNECT_GRACE_MS)])
  {
    assert [e][1..] == [];
    assert DisconnectAll(DisconnectOne(s, e), []) == DisconnectOne(s, e);
  }

  lemma {:induction false} Continues(from: State, steps: seq<Step>, mid: State, more: seq<Step>, s: State)
    requires Reaches(from, steps, mid) && Reaches(mid, more, s)
    ensures Reaches(from, steps + more, s)
    decreases |steps|
  {
    hide Next, Enabled;
    if steps == [] {
      assert steps + more == more;
    } else {
      assert (steps + more)[0] == steps[0] && (steps + more)[1..] == steps[1..] + more;
      Continues(Next(from, steps[0]), steps[1..], mid, more, s);
    }
  }

  /** So a reported SUCCESS can end up as FAILED. */
  lemma SuccessCanBeLost(e: Id) returns (steps: seq<Step>, later: State)
    ensures Reaches(START, steps, later)
    ensures Writing(e, Success) !in later.awaits && e in later.db && later.db[e] == Failed
  {
    var s := CallbackReachable(e);
    RunKeeps(START, LateSuccess(e), s);
    assert AwaitOk(s, Writing(e, Success));
    var more, end := CallbackOverwrites(s, e, Success);
    Continues(START, LateSuccess(e), s, more, end);
    steps, later := LateSuccess(e) + more, end;
  }
}
