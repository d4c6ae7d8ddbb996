/** Rolling mode. A machine that is offline, or that does not accept the command, never stays in
    `running`, and then one wave can be evaluated twice (see JobCounterexamples). Under the
    environment assumption `CleanStep` the waves form a barrier and the failure budget holds. */
module JobRolling {
  import opened Chunks
  import opened JobMachine
  import opened JobAbort

  // --- the environment assumption ---

  /** `e` is the only execution of its wave. */
  ghost predicate Sole(s: Job, e: Id) {
    [e] in s.batches
  }

  /** The wave that a resumed task may dispatch. */
  function NextWave(s: Job, t: Task): nat {
    if t.Counted? then s.currentBatch + 1 else s.currentBatch
  }

  ghost predicate ResultPending(s: Job, e: Id) {
    exists st :: Write(e, st, ThenFinishReported) in s.pending || Written(e, st, ThenFinishReported) in s.pending
  }

  /** In a wave of two or more, machines are online and accept the command; each execution
      finishes once. A wave of one may fail to be dispatched. */
  ghost predicate CleanStep(s: Job, step: Step) {
    match step
    case Resume(t, online, sent) =>
      if t.Sending? then
        sent || (Sole(s, t.e) && t.e in s.running && !ResultPending(s, t.e))
      else if t.Starting? || t.WaveTimer? || t.Counted? then
        NextWave(s, t) < |s.batches| && |s.batches[NextWave(s, t)]| > 1
        ==> SetOf(s.batches[NextWave(s, t)]) <= online
      else true
    case Report(e, _) => e in s.running && !ResultPending(s, e)
    case _ => true
  }

  ghost predicate CleanRun(cfg: Config, from: Job, steps: seq<Step>, s: Job)
    decreases |steps|
  {
    if steps == [] then s == from
    else
      && Enabled(from, steps[0])
      && CleanStep(from, steps[0])
      && CleanRun(cfg, Next(cfg, from, steps[0]), steps[1..], s)
  }

  // --- the invariant ---

  /** The first `k` waves, in order. */
  function Upto(s: Job, k: nat): seq<Id>
    requires k <= |s.batches|
  {
    Flatten(s.batches[..k])
  }

  /** The current wave is not dispatched yet. */
  ghost predicate Idle(s: Job) {
    s.currentBatch <= |s.batches| && s.log == Upto(s, s.currentBatch)
  }

  /** The current wave is dispatched, and no later one. */
  ghost predicate Out(s: Job) {
    s.currentBatch < |s.batches| && s.log == Upto(s, s.currentBatch) + s.batches[s.currentBatch]
  }

  predicate IsWrite(t: Task) { t.Write? || t.Written? }

  predicate IsControl(t: Task) { t.Starting? || t.Counting? || t.Counted? || t.WaveTimer? }

  ghost predicate WriteOk(s: Job, t: Task)
    requires IsWrite(t)
  {
    && Out(s) && t.e in s.batches[s.currentBatch] && t.e in s.db
    && (t.next.ThenSend? ==> t.e in s.running && t.e !in s.inflight && t.st == Running && Sending(t.e) !in s.pending)
    && (t.next.ThenFinish? ==> s.batches[s.currentBatch] == [t.e] && t.e !in s.running && t.st == Failed)
    && (t.next.ThenFinishReported? ==> t.e in s.running && Final(t.st))
    && (t.Written? && !t.next.ThenSend? ==> s.db[t.e] == t.st)
  }

  ghost predicate Execs(s: Job) {
    && (forall e :: e in s.running ==> Out(s) && e in s.batches[s.currentBatch])
    && (forall t :: t in s.pending && IsWrite(t) ==> s.pending[t] == 1 && WriteOk(s, t))
    && (forall t, u :: t in s.pending && u in s.pending && IsWrite(t) && IsWrite(u) && t.e == u.e ==> t == u)
    && (forall e :: e in s.log ==> e in s.db)
    && (forall e :: e in s.log && e !in s.running && !Final(s.db[e]) ==> Write(e, Failed, ThenFinish) in s.pending)
  }

  /** Everything dispatched is settled. */
  ghost predicate Settled(s: Job) {
    s.running == {} && forall t :: t in s.pending ==> !IsWrite(t)
  }

  ghost predicate ControlOk(s: Job, t: Task)
    requires IsControl(t)
  {
    match t
    case Counting(batch) => Out(s) && Settled(s) && batch == s.batches[s.currentBatch]
    case Counted(failures, total) =>
      && Out(s) && Settled(s)
      && failures == |FailedRows(s.db, s.batches[s.currentBatch])|
      && total == |Rows(s.db, s.batches[s.currentBatch])|
    case _ => Idle(s) && s.currentBatch < |s.batches|
  }

  ghost predicate Control(s: Job) {
    && (forall t :: t in s.pending && IsControl(t) ==> s.pending[t] == 1 && ControlOk(s, t))
    && (forall t, u :: t in s.pending && u in s.pending && IsControl(t) && IsControl(u) ==> t == u)
  }

  ghost predicate Completion(s: Job) {
    && (s.completions > 0 ==> Idle(s) && s.currentBatch == |s.batches|)
    && s.completions <= 1
    && (!s.live || Completing in s.pending <==> s.completions > 0)
  }

  ghost predicate HasControl(s: Job) { exists t :: t in s.pending && IsControl(t) }

  ghost predicate OfflineWave(s: Job) {
    && Out(s)
    && s.batches[s.currentBatch] != []
    && (Write(s.batches[s.currentBatch][0], Failed, ThenFinish) in s.pending
        || Written(s.batches[s.currentBatch][0], Failed, ThenFinish) in s.pending)
  }

  /** Something outstanding will move the job on. */
  ghost predicate Driven(s: Job) {
    s.aborted || s.completions > 0 || HasControl(s) || s.running != {} || OfflineWave(s)
  }

  ghost predicate WithinBudget(cfg: Config, db: map<Id, Status>, es: seq<Id>) {
    cfg.stopOnFailurePercent.Some? && cfg.stopOnFailurePercent.value != 0.0 ==>
      |FailedRows(db, es)| as real * 100.0 <= cfg.stopOnFailurePercent.value * |es| as real
  }

  ghost predicate Waves(ids: seq<Id>, s: Job) {
    && Flatten(s.batches) == ids
    && NoDup(ids)
    && (forall k :: 0 <= k < |s.batches| ==> s.batches[k] != [])
  }

  ghost predicate Roll(cfg: Config, ids: seq<Id>, s: Job) {
    && Waves(ids, s)
    && (Idle(s) || Out(s))
    && Execs(s)
    && Control(s)
    && Completion(s)
    && s.currentBatch <= |s.batches|
    && WithinBudget(cfg, s.db, Upto(s, s.currentBatch))
  }

  ghost predicate Inv(cfg: Config, ids: seq<Id>, s: Job) { General(ids, s) && Roll(cfg, ids, s) && Driven(s) }

  // --- the geometry of the waves ---

  lemma Geometry(ids: seq<Id>, s: Job)
    requires Waves(ids, s) && s.currentBatch < |s.batches|
    ensures Upto(s, s.currentBatch + 1) == Upto(s, s.currentBatch) + s.batches[s.currentBatch]
    ensures !(Idle(s) && Out(s))
    ensures NoDup(s.batches[s.currentBatch])
    ensures forall e :: e in s.batches[s.currentBatch] ==> e in ids && e !in Upto(s, s.currentBatch)
  {
    var k := s.currentBatch;
    FlattenTake(s.batches, k);
    FlattenSplit(s.batches, k + 1);
    NoDupSplit(Flatten(s.batches[..k + 1]), Flatten(s.batches[k + 1..]));
    NoDupSplit(Upto(s, k), s.batches[k]);
  }

  lemma AllWaves(ids: seq<Id>, s: Job)
    requires Waves(ids, s)
    ensures Upto(s, |s.batches|) == ids
    ensures s.currentBatch == |s.batches| ==> !Out(s)
  {
    assert s.batches[..|s.batches|] == s.batches;
  }

  /** A sole execution of the current wave is the whole wave. */
  lemma SoleIsWave(ids: seq<Id>, s: Job, e: Id)
    requires Waves(ids, s) && s.currentBatch < |s.batches|
    requires Sole(s, e) && e in s.batches[s.currentBatch]
    ensures s.batches[s.currentBatch] == [e]
  {
    var k :| 0 <= k < |s.batches| && s.batches[k] == [e];
    DistinctWaves(s.batches, k, s.currentBatch, e);
  }

  lemma DistinctWaves(parts: seq<seq<Id>>, i: nat, j: nat, e: Id)
    requires NoDup(Flatten(parts)) && i < |parts| && j < |parts| && e in parts[i] && e in parts[j]
    ensures i == j
  {
    if i < j {
      DisjointPieces(parts, i, j, e);
    } else if j < i {
      DisjointPieces(parts, j, i, e);
    }
  }

  // --- database facts ---

  lemma SameFailures(db: map<Id, Status>, db': map<Id, Status>, es: seq<Id>)
    requires db'.Keys == db.Keys
    requires forall e :: e in es && e in db ==> (db[e] == Failed <==> db'[e] == Failed)
    ensures FailedRows(db', es) == FailedRows(db, es) && Rows(db', es) == Rows(db, es)
  {
  }

  lemma {:induction false} CardOfNoDup(es: seq<Id>)
    requires NoDup(es)
    ensures |SetOf(es)| == |es|
  {
    if es == [] {
    } else {
      NoDupSplit([es[0]], es[1..]);
      assert es == [es[0]] + es[1..];
      CardOfNoDup(es[1..]);
      assert SetOf(es) == {es[0]} + SetOf(es[1..]);
    }
  }

  lemma FailuresAdd(db: map<Id, Status>, done: seq<Id>, wave: seq<Id>)
    requires NoDup(done + wave)
    ensures |FailedRows(db, done + wave)| == |FailedRows(db, done)| + |FailedRows(db, wave)|
  {
    NoDupSplit(done, wave);
    assert FailedRows(db, done + wave) == FailedRows(db, done) + FailedRows(db, wave);
    assert FailedRows(db, done) !! FailedRows(db, wave);
  }

  lemma BudgetAdds(p: real, f: nat, g: nat, m: nat, n: nat)
    requires f as real * 100.0 <= p * m as real && g as real * 100.0 <= p * n as real
    ensures (f + g) as real * 100.0 <= p * (m + n) as real
  {
    assert p * (m + n) as real == p * m as real + p * n as real;
  }

  /** A wave that passes the threshold test keeps the whole run within its failure budget. */
  lemma BudgetGrows(cfg: Config, db: map<Id, Status>, done: seq<Id>, wave: seq<Id>)
    requires WithinBudget(cfg, db, done) && NoDup(done + wave) && wave != []
    requires forall e :: e in wave ==> e in db
    requires !OverThreshold(cfg, |FailedRows(db, wave)|, |Rows(db, wave)|)
    ensures WithinBudget(cfg, db, done + wave)
  {
    if cfg.stopOnFailurePercent.Some? && cfg.stopOnFailurePercent.value != 0.0 {
      NoDupSplit(done, wave);
      FailuresAdd(db, done, wave);
      assert Rows(db, wave) == SetOf(wave);
      CardOfNoDup(wave);
      BudgetAdds(cfg.stopOnFailurePercent.value, |FailedRows(db, done)|, |FailedRows(db, wave)|, |done|, |wave|);
    }
  }

  // --- tasks that neither write nor control ---

  /** `s'` differs from `s` in nothing the rolling invariant looks at, except that some
      confirmations of sent commands may be gone, and in an aborted job some control tasks. */
  ghost predicate SameShape(s: Job, s': Job) {
    && s' == s.(queue := s'.queue, aborted := s'.aborted, timer := s'.timer, pending := s'.pending)
    && (s.aborted ==> s'.aborted)
    && (forall t :: IsWrite(t) || t.Completing? ==> s'.pending[t] == s.pending[t])
    && (forall t :: IsControl(t) ==> s'.pending[t] == s.pending[t] || (s'.aborted && s'.pending[t] < s.pending[t]))
    && (forall e :: Sending(e) in s'.pending ==> Sending(e) in s.pending)
  }

  lemma ShapeExecs(s: Job, s': Job)
    requires SameShape(s, s') && Execs(s)
    ensures Execs(s')
  {
    forall t | t in s'.pending && IsWrite(t) ensures s'.pending[t] == 1 && WriteOk(s', t) {
      assert t in s.pending && WriteOk(s, t);
    }
  }

  lemma ShapeControl(s: Job, s': Job)
    requires SameShape(s, s') && Control(s)
    ensures Control(s')
  {
    assert forall t :: IsWrite(t) && t in s'.pending ==> t in s.pending;
    forall t | t in s'.pending && IsControl(t) ensures s'.pending[t] == 1 && ControlOk(s', t) {
      assert t in s.pending && ControlOk(s, t);
    }
  }

  lemma ShapeDriven(s: Job, s': Job)
    requires SameShape(s, s') && Driven(s)
    ensures Driven(s')
  {
    if HasControl(s) && !s'.aborted {
      var c :| c in s.pending && IsControl(c);
      assert c in s'.pending;
    }
    if OfflineWave(s) {
      assert OfflineWave(s');
    }
  }

  lemma ShapeRoll(cfg: Config, ids: seq<Id>, s: Job, s': Job)
    requires SameShape(s, s') && Roll(cfg, ids, s) && Driven(s)
    ensures Roll(cfg, ids, s') && Driven(s')
  {
    ShapeExecs(s, s');
    ShapeControl(s, s');
    ShapeDriven(s, s');
  }

  lemma AbortRoll(cfg: Config, ids: seq<Id>, s: Job)
    requires Roll(cfg, ids, s) && Driven(s)
    ensures Roll(cfg, ids, Abort(s)) && Driven(Abort(s))
  {
    AbortShape(s);
    hide Roll, Driven, SameShape, Abort;
    ShapeRoll(cfg, ids, s, Abort(s));
  }

  lemma AbortShape(s: Job)
    ensures SameShape(s, Abort(s))
  {
    hide PendingIds;
  }

  // --- dispatching a wave ---

  /** What dispatching `es` adds to the outstanding awaits when every machine is online. */
  ghost predicate AllSent(s: Job, es: seq<Id>, s': Job) {
    && s' == s.(queue := s'.queue, log := s.log + es, running := s.running + SetOf(es), pending := s'.pending)
    && (forall t :: s'.pending[t] ==
          s.pending[t] + if t.Write? && t.st.Running? && t.next.ThenSend? && t.e in es then 1 else 0)
  }

  lemma {:induction false} DispatchOnline(s: Job, es: seq<Id>, online: set<Id>)
    requires s.live && !s.aborted && NoDup(es) && SetOf(es) <= online
    ensures AllSent(s, es, DispatchAll(s, es, online))
    decreases |es|
  {
    if es == [] {
      assert s.log + es == s.log;
      assert s.running + SetOf(es) == s.running;
    } else {
      var s1 := Dispatch(s, es[0], online);
      assert es[0] in SetOf(es);
      NoDupSplit([es[0]], es[1..]);
      assert es == [es[0]] + es[1..];
      DispatchOnline(s1, es[1..], online);
      assert s1 == s.(queue := s1.queue, log := s.log + [es[0]], running := s.running + {es[0]},
                      pending := s.pending + multiset{Write(es[0], Running, ThenSend)});
      hide Dispatch;
      AllSentStep(s, s1, es, DispatchAll(s1, es[1..], online));
    }
  }

  lemma AllSentStep(s: Job, s1: Job, es: seq<Id>, s': Job)
    requires es != [] && es[0] !in es[1..] && AllSent(s1, es[1..], s')
    requires s1 == s.(queue := s1.queue, log := s.log + [es[0]], running := s.running + {es[0]},
                      pending := s.pending + multiset{Write(es[0], Running, ThenSend)})
    ensures AllSent(s, es, s')
  {
    assert es == [es[0]] + es[1..];
    assert s.log + es == s.log + [es[0]] + es[1..];
    assert SetOf(es) == {es[0]} + SetOf(es[1..]);
    assert s.running + SetOf(es) == s.running + {es[0]} + SetOf(es[1..]);
  }

  // --- committing ---

  /** While a status write is outstanding the wave is out, and nothing is about to evaluate it. */
  lemma WriteMeansOut(ids: seq<Id>, s: Job, t: Task)
    requires Waves(ids, s) && Execs(s) && Control(s) && t in s.pending && IsWrite(t)
    ensures Out(s) && !Idle(s) && s.currentBatch < |s.batches|
    ensures forall x :: x in s.pending ==> !IsControl(x)
  {
    assert WriteOk(s, t);
    Geometry(ids, s);
  }

  lemma CommitWriteDriven(s: Job, e: Id, st: Status, next: Then)
    requires Driven(s) && Write(e, st, next) in s.pending
    requires forall x :: x in s.pending ==> !IsControl(x)
    ensures Driven(CommitTask(s, Write(e, st, next)))
  {
    var s' := CommitTask(s, Write(e, st, next));
    if OfflineWave(s) {
      var x := s.batches[s.currentBatch][0];
      assert Written(e, st, next) in s'.pending;
      assert forall t :: t in s.pending && t != Write(e, st, next) ==> t in s'.pending;
      assert Out(s');
      assert OfflineWave(s');
    }
  }

  lemma CommitWriteRest(s: Job, e: Id, st: Status, next: Then)
    requires Control(s) && Completion(s) && Write(e, st, next) in s.pending
    requires forall x :: x in s.pending ==> !IsControl(x)
    ensures Control(CommitTask(s, Write(e, st, next))) && Completion(CommitTask(s, Write(e, st, next)))
  {
    var s' := CommitTask(s, Write(e, st, next));
    assert forall x :: x in s'.pending ==> x == Written(e, st, next) || x in s.pending;
    assert Completing in s'.pending <==> Completing in s.pending;
  }

  /** A write only changes executions of the wave that is out, never a settled wave. */
  lemma CommitWriteRoll(cfg: Config, ids: seq<Id>, s: Job, e: Id, st: Status, next: Then)
    requires Roll(cfg, ids, s) && Driven(s) && Write(e, st, next) in s.pending
    ensures Roll(cfg, ids, CommitTask(s, Write(e, st, next)))
    ensures Driven(CommitTask(s, Write(e, st, next)))
  {
    WriteMeansOut(ids, s, Write(e, st, next));
    CommitWriteExecs(s, e, st, next);
    CommitWriteDriven(s, e, st, next);
    CommitWriteRest(s, e, st, next);
    WriteBudget(cfg, ids, s, Write(e, st, next));
  }

  lemma WriteBudget(cfg: Config, ids: seq<Id>, s: Job, t: Task)
    requires Waves(ids, s) && Execs(s) && t in s.pending && IsWrite(t) && s.currentBatch < |s.batches|
    requires WithinBudget(cfg, s.db, Upto(s, s.currentBatch))
    ensures WithinBudget(cfg, SetStatus(s.db, t.e, t.st), Upto(s, s.currentBatch))
  {
    assert WriteOk(s, t);
    Geometry(ids, s);
    SameFailures(s.db, SetStatus(s.db, t.e, t.st), Upto(s, s.currentBatch));
  }

  lemma CommitWriteExecs(s: Job, e: Id, st: Status, next: Then)
    requires Execs(s) && Write(e, st, next) in s.pending
    ensures Execs(CommitTask(s, Write(e, st, next)))
  {
    var t, u := Write(e, st, next), Written(e, st, next);
    var s' := CommitTask(s, t);
    CommitWriteWrites(s, t, u);
    CommitWriteLog(s, t);
    hide CommitTask, WriteOk;
    CommitWriteFrame(s, t);
  }

  lemma CommitWriteFrame(s: Job, t: Task)
    requires t.Write?
    ensures var s' := CommitTask(s, t);
            s' == s.(db := SetStatus(s.db, t.e, t.st), pending := s'.pending) && s'.db.Keys == s.db.Keys
  {
  }

  /** The outstanding writes after a commit. */
  lemma CommitWriteWrites(s: Job, t: Task, u: Task)
    requires Execs(s) && t in s.pending && t.Write? && u == Written(t.e, t.st, t.next)
    ensures var s' := CommitTask(s, t);
            && (forall x :: x in s'.pending && IsWrite(x) ==> s'.pending[x] == 1 && WriteOk(s', x))
            && (forall x, y :: x in s'.pending && y in s'.pending && IsWrite(x) && IsWrite(y) && x.e == y.e ==> x == y)
  {
    var s' := CommitTask(s, t);
    CommitWritePending(s, t, u);
    WriteCommitted(s, t, u);
    hide CommitTask, WriteOk;
    forall x | x in s'.pending && IsWrite(x) && x != u ensures WriteOk(s', x) {
      WriteStays(s, t, x);
    }
  }

  lemma WriteCommitted(s: Job, t: Task, u: Task)
    requires Execs(s) && t in s.pending && t.Write? && u == Written(t.e, t.st, t.next)
    ensures WriteOk(CommitTask(s, t), u)
  {
    assert WriteOk(s, t);
  }

  lemma WriteStays(s: Job, t: Task, x: Task)
    requires Execs(s) && t in s.pending && t.Write? && x in s.pending && IsWrite(x) && x != t
    ensures WriteOk(CommitTask(s, t), x)
  {
    assert WriteOk(s, x) && x.e != t.e;
  }

  lemma CommitWriteLog(s: Job, t: Task)
    requires Execs(s) && t in s.pending && t.Write?
    ensures var s' := CommitTask(s, t);
            forall x :: x in s'.log && x !in s'.running && !Final(s'.db[x]) ==> Write(x, Failed, ThenFinish) in s'.pending
  {
    var s' := CommitTask(s, t);
    CommitWritePending(s, t, Written(t.e, t.st, t.next));
    assert WriteOk(s, t);
    forall x | x in s'.log && x !in s'.running && !Final(s'.db[x])
      ensures Write(x, Failed, ThenFinish) in s'.pending
    {
      assert x != t.e;
    }
  }

  /** A committed write becomes a wait for its answer; all else stays outstanding. */
  lemma CommitWritePending(s: Job, t: Task, u: Task)
    requires Execs(s) && t in s.pending && t.Write? && u == Written(t.e, t.st, t.next)
    ensures var s' := CommitTask(s, t);
            && u !in s.pending && s'.pending[u] == 1
            && (forall x :: x in s'.pending ==> x == u || (x in s.pending && x != t && s'.pending[x] == s.pending[x]))
            && (forall x :: x in s.pending && x != t ==> x in s'.pending)
  {
    hide WriteOk;
  }

  lemma CommitCountRoll(cfg: Config, ids: seq<Id>, s: Job, batch: seq<Id>)
    requires Roll(cfg, ids, s) && Counting(batch) in s.pending
    ensures Roll(cfg, ids, CommitTask(s, Counting(batch))) && Driven(CommitTask(s, Counting(batch)))
  {
    var s' := CommitTask(s, Counting(batch));
    CountExecs(s, batch, s');
    CountControl(s, batch, s');
  }

  lemma CountExecs(s: Job, batch: seq<Id>, s': Job)
    requires Execs(s) && Control(s) && Counting(batch) in s.pending && s' == CommitTask(s, Counting(batch))
    ensures Execs(s')
  {
    assert ControlOk(s, Counting(batch));
    assert forall x :: IsWrite(x) || x.Sending? ==> s'.pending[x] == s.pending[x];
  }

  lemma CountControl(s: Job, batch: seq<Id>, s': Job)
    requires Control(s) && Completion(s) && Counting(batch) in s.pending && s' == CommitTask(s, Counting(batch))
    ensures Control(s') && Completion(s') && Driven(s')
  {
    var t := Counting(batch);
    var u := Counted(|FailedRows(s.db, batch)|, |Rows(s.db, batch)|);
    assert ControlOk(s, t);
    TakeControl(s, t);
    assert s'.pending == Take(s, t).pending + multiset{u};
    assert forall x :: x in s'.pending ==> x == u || x in Take(s, t).pending;
    assert s'.pending[u] == 1 && u in s'.pending && IsControl(u);
    assert ControlOk(s', u);
  }

  lemma CommitSkipRoll(cfg: Config, ids: seq<Id>, s: Job, es: set<Id>)
    requires Roll(cfg, ids, s) && Driven(s) && Skipping(es) in s.pending && es !! SetOf(s.log)
    ensures Roll(cfg, ids, CommitTask(s, Skipping(es))) && Driven(CommitTask(s, Skipping(es)))
  {
    SkipShape(s, es);
    SkippedRows(s, es);
    hide Roll, Driven, SameShape, CommitTask, SkipRows;
    SkipRoll(cfg, ids, s, SkipRows(s.db, es));
    ShapeRoll(cfg, ids, s.(db := SkipRows(s.db, es)), CommitTask(s, Skipping(es)));
  }

  lemma SkippedRows(s: Job, es: set<Id>)
    requires es !! SetOf(s.log)
    ensures SkipRows(s.db, es).Keys == s.db.Keys
    ensures forall e :: e in s.log && e in s.db ==> SkipRows(s.db, es)[e] == s.db[e]
  {
    forall e | e in s.log && e in s.db ensures SkipRows(s.db, es)[e] == s.db[e] {
      assert e in SetOf(s.log);
    }
  }

  lemma SkipShape(s: Job, es: set<Id>)
    requires Skipping(es) in s.pending
    ensures SameShape(s.(db := SkipRows(s.db, es)), CommitTask(s, Skipping(es)))
  {
    hide SkipRows;
  }

  lemma SkipRoll(cfg: Config, ids: seq<Id>, s: Job, db: map<Id, Status>)
    requires Roll(cfg, ids, s) && Driven(s) && db.Keys == s.db.Keys
    requires forall e :: e in s.log && e in s.db ==> db[e] == s.db[e]
    ensures Roll(cfg, ids, s.(db := db)) && Driven(s.(db := db))
  {
    SkipExecs(s, s.(db := db));
    SkipControl(s, s.(db := db));
    SkipDriven(s, s.(db := db));
    SkipBudget(cfg, s, db);
  }

  lemma SkipDriven(s: Job, s1: Job)
    requires Driven(s) && s1 == s.(db := s1.db)
    ensures Driven(s1)
  {
    if HasControl(s) {
      var t :| t in s.pending && IsControl(t);
      assert t in s1.pending;
    }
    if OfflineWave(s) {
      assert OfflineWave(s1);
    }
  }

  lemma SkipBudget(cfg: Config, s: Job, db: map<Id, Status>)
    requires s.currentBatch <= |s.batches| && (Idle(s) || Out(s)) && db.Keys == s.db.Keys
    requires forall e :: e in s.log && e in s.db ==> db[e] == s.db[e]
    requires WithinBudget(cfg, s.db, Upto(s, s.currentBatch))
    ensures WithinBudget(cfg, db, Upto(s, s.currentBatch))
  {
    SameFailures(s.db, db, Upto(s, s.currentBatch));
  }

  lemma SkipControl(s: Job, s1: Job)
    requires Control(s) && s1 == s.(db := s1.db) && s1.db.Keys == s.db.Keys
    requires forall e :: e in s.log && e in s.db ==> s1.db[e] == s.db[e]
    ensures Control(s1)
  {
    if Out(s) {
      SameFailures(s.db, s1.db, s.batches[s.currentBatch]);
    }
    forall t | t in s1.pending && IsControl(t) ensures ControlOk(s1, t) {
      assert ControlOk(s, t);
    }
  }

  lemma SkipExecs(s: Job, s1: Job)
    requires Execs(s) && s1 == s.(db := s1.db) && s1.db.Keys == s.db.Keys
    requires forall e :: e in s.log && e in s.db ==> s1.db[e] == s.db[e]
    ensures Execs(s1)
  {
    forall t | t in s1.pending && IsWrite(t) ensures WriteOk(s1, t) {
      assert WriteOk(s, t);
      assert t.e in s.log;
    }
  }

  lemma CommitRoll(cfg: Config, ids: seq<Id>, s: Job, t: Task)
    requires Inv(cfg, ids, s) && t in s.pending && NeedsCommit(t)
    ensures Roll(cfg, ids, CommitTask(s, t)) && Driven(CommitTask(s, t))
  {
    match t
    case Write(e, st, next) => CommitWriteRoll(cfg, ids, s, e, st, next);
    case Counting(batch) => CommitCountRoll(cfg, ids, s, batch);
    case Skipping(es) =>
      assert TaskOk(ids, s, t);
      CommitSkipRoll(cfg, ids, s, es);
  }

  // --- resuming ---

  lemma SentRoll(cfg: Config, ids: seq<Id>, s: Job, e: Id, st: Status)
    requires Roll(cfg, ids, s) && Driven(s) && Written(e, st, ThenSend) in s.pending
    requires TasksOk(ids, s)
    ensures Roll(cfg, ids, AfterWrite(cfg, Take(s, Written(e, st, ThenSend)), e, ThenSend, {}))
    ensures Driven(AfterWrite(cfg, Take(s, Written(e, st, ThenSend)), e, ThenSend, {}))
  {
    var t := Written(e, st, ThenSend);
    WriteMeansOut(ids, s, t);
    assert WriteOk(s, t);
    var s' := AfterWrite(cfg, Take(s, t), e, ThenSend, {});
    SentExecs(s, e, st, s');
    SentRest(s, s', t, Sending(e));
  }

  lemma SentExecs(s: Job, e: Id, st: Status, s': Job)
    requires Execs(s) && Written(e, st, ThenSend) in s.pending
    requires s' == s.(inflight := s.inflight + {e},
                      pending := s.pending - multiset{Written(e, st, ThenSend)} + multiset{Sending(e)})
    ensures Execs(s')
  {
    var t := Written(e, st, ThenSend);
    assert forall x :: x in s'.pending ==> x == Sending(e) || (x in s.pending && x != t && s'.pending[x] == s.pending[x]);
    assert e in s.running && Out(s) by {
      assert WriteOk(s, t);
    }
    forall x | x in s'.pending && IsWrite(x) ensures WriteOk(s', x) {
      SentOther(s, t, x, s');
    }
    hide WriteOk;
    forall x | x in s.log && x !in s.running ensures Final(s.db[x]) {
      SentIsFinal(s, t, x);
    }
  }

  lemma SentOther(s: Job, t: Task, x: Task, s': Job)
    requires Execs(s) && t in s.pending && IsWrite(t) && x in s.pending && IsWrite(x) && x != t
    requires s' == s.(inflight := s.inflight + {t.e}, pending := s.pending - multiset{t} + multiset{Sending(t.e)})
    ensures WriteOk(s', x)
  {
    assert WriteOk(s, x) && x.e != t.e;
  }

  /** While an execution is about to be sent, no other one of the wave can lack its final status. */
  lemma SentIsFinal(s: Job, t: Task, x: Id)
    requires Execs(s) && t in s.pending && t.Written? && t.next.ThenSend? && x in s.log && x !in s.running
    ensures Final(s.db[x])
  {
    assert WriteOk(s, t);
    var w := Write(x, Failed, ThenFinish);
    assert !Final(s.db[x]) ==> w in s.pending && WriteOk(s, w);
  }

  /** Replacing a write await by another await that is no control task. */
  lemma SentRest(s: Job, s': Job, t: Task, u: Task)
    requires Control(s) && Completion(s) && IsWrite(t) && !IsControl(u) && !u.Completing?
    requires forall x :: x in s.pending ==> !IsControl(x)
    requires s' == s.(inflight := s'.inflight, pending := s.pending - multiset{t} + multiset{u})
    ensures Control(s') && Completion(s')
  {
    assert forall x :: x in s'.pending ==> x == u || x in s.pending;
    assert Completing in s'.pending <==> Completing in s.pending;
  }

  /** Where the finish of one execution leads: the wave goes on, or its evaluation starts, or the
      job was aborted and nothing more happens. */
  ghost predicate FinishedTo(s: Job, s': Job)
    requires s.currentBatch < |s.batches|
  {
    && s' == s.(pending := s'.pending)
    && (forall x :: !IsControl(x) ==> s'.pending[x] == s.pending[x])
    && if s.running != {} || s.aborted then s' == s
       else s'.pending == s.pending + multiset{Counting(s.batches[s.currentBatch])}
  }

  lemma FinishTarget(cfg: Config, s: Job, e: Id, online: set<Id>)
    requires s.live && cfg.mode.Rolling? && s.currentBatch < |s.batches|
    requires forall x :: x in s.running ==> x in s.batches[s.currentBatch]
    ensures FinishedTo(s.(running := s.running - {e}), OnFinished(cfg, s, e, online))
  {
    var s1 := s.(running := s.running - {e});
    if s1.running != {} {
      var x :| x in s1.running;
      assert x in CurrentBatch(s1);
    }
  }

  /** `s1` is `s` with the finished execution's await and its place in `running` gone. */
  ghost predicate Leaving(s: Job, t: Task, s1: Job) {
    && t in s.pending && t.Written? && !t.next.ThenSend?
    && s1 == s.(pending := s.pending - multiset{t}, inflight := s1.inflight, running := s.running - {t.e})
    && s1.inflight <= s.inflight
  }

  lemma LeavingExecs(s: Job, t: Task, s1: Job)
    requires Execs(s) && Leaving(s, t, s1)
    ensures Execs(s1) && (s1.running == {} ==> Settled(s1))
  {
    assert WriteOk(s, t);
    assert forall x :: x in s1.pending ==> x in s.pending && x != t && s1.pending[x] == s.pending[x];
    forall x | x in s1.pending && IsWrite(x) ensures s1.pending[x] == 1 && WriteOk(s1, x) {
      assert WriteOk(s, x) && x.e != t.e;
    }
    forall x | x in s1.log && x !in s1.running ensures Final(s1.db[x]) {
      LeavingIsFinal(s, t, x);
    }
  }

  /** While a status write is being waited for, no other execution of the wave can still lack its own. */
  lemma LeavingIsFinal(s: Job, t: Task, x: Id)
    requires Execs(s) && t in s.pending && t.Written? && !t.next.ThenSend?
    requires x in s.log && (x == t.e || x !in s.running)
    ensures Final(s.db[x])
  {
    assert WriteOk(s, t);
    var w := Write(x, Failed, ThenFinish);
    assert x != t.e && !Final(s.db[x]) ==> w in s.pending && WriteOk(s, w);
  }

  lemma FinishedToExecs(s: Job, s': Job)
    requires Execs(s) && s.currentBatch < |s.batches| && FinishedTo(s, s')
    ensures Execs(s') && (Settled(s) ==> Settled(s'))
  {
    assert forall x :: IsWrite(x) || x.Sending? ==> s'.pending[x] == s.pending[x];
    forall x | x in s'.pending && IsWrite(x) ensures s'.pending[x] == 1 && WriteOk(s', x) {
      assert x in s.pending && WriteOk(s, x);
    }
  }

  lemma FinishedToRest(s: Job, s': Job)
    requires Completion(s) && Out(s) && FinishedTo(s, s')
    requires forall x :: x in s.pending ==> !IsControl(x)
    requires s.running == {} ==> Settled(s)
    ensures Control(s') && Completion(s') && Driven(s')
  {
    assert Completing in s'.pending <==> Completing in s.pending;
    if s.running == {} && !s.aborted {
      var u := Counting(s.batches[s.currentBatch]);
      assert forall x :: x in s'.pending ==> x == u || x in s.pending;
      assert s'.pending[u] == 1;
      assert Settled(s');
      assert u in s'.pending && IsControl(u);
    }
  }

  lemma FinishedRoll(cfg: Config, ids: seq<Id>, s: Job, t: Task, s1: Job, online: set<Id>)
    requires Roll(cfg, ids, s) && cfg.mode.Rolling? && Leaving(s, t, s1)
    ensures Roll(cfg, ids, OnFinished(cfg, s1.(running := s.running), t.e, online))
    ensures Driven(OnFinished(cfg, s1.(running := s.running), t.e, online))
  {
    WriteMeansOut(ids, s, t);
    LeavingExecs(s, t, s1);
    var s2 := s1.(running := s.running);
    assert s2.(running := s2.running - {t.e}) == s1;
    FinishTarget(cfg, s2, t.e, online);
    FinishedToRoll(cfg, ids, s, t, s1, OnFinished(cfg, s2, t.e, online));
  }

  lemma FinishedToRoll(cfg: Config, ids: seq<Id>, s: Job, t: Task, s1: Job, s': Job)
    requires Roll(cfg, ids, s) && Leaving(s, t, s1) && Out(s) && s.currentBatch < |s.batches| && FinishedTo(s1, s')
    requires Execs(s1) && (s1.running == {} ==> Settled(s1)) && forall x :: x in s.pending ==> !IsControl(x)
    ensures Roll(cfg, ids, s') && Driven(s')
  {
    assert Completing in s1.pending <==> Completing in s.pending;
    FinishedToExecs(s1, s');
    FinishedToRest(s1, s');
    hide Execs, Control, Completion, Driven;
  }

  lemma WrittenRoll(cfg: Config, ids: seq<Id>, s: Job, e: Id, st: Status, next: Then, online: set<Id>)
    requires Inv(cfg, ids, s) && cfg.mode.Rolling? && Written(e, st, next) in s.pending
    ensures Roll(cfg, ids, AfterWrite(cfg, Take(s, Written(e, st, next)), e, next, online))
    ensures Driven(AfterWrite(cfg, Take(s, Written(e, st, next)), e, next, online))
  {
    var t := Written(e, st, next);
    var s0 := Take(s, t);
    match next
    case ThenSend => SentRoll(cfg, ids, s, e, st);
    case ThenFinish =>
      FinishedRoll(cfg, ids, s, t, s0.(running := s.running - {e}), online);
      assert s0.(running := s.running - {e}).(running := s.running) == s0;
    case ThenFinishReported =>
      var s1 := s0.(inflight := s0.inflight - {e});
      FinishedRoll(cfg, ids, s, t, s1.(running := s.running - {e}), online);
      assert s1.(running := s.running - {e}).(running := s.running) == s1;
  }

  /** The machine of a one-execution wave did not take the command. */
  lemma UnsentRoll(cfg: Config, ids: seq<Id>, s: Job, e: Id)
    requires Roll(cfg, ids, s) && Sending(e) in s.pending
    requires Sole(s, e) && e in s.running && !ResultPending(s, e)
    ensures Roll(cfg, ids, AfterSend(Take(s, Sending(e)), e, false))
    ensures Driven(AfterSend(Take(s, Sending(e)), e, false))
  {
    Geometry(ids, s);
    SoleIsWave(ids, s, e);
    var w := Write(e, Failed, ThenFinish);
    var s' := s.(running := s.running - {e}, pending := s.pending - multiset{Sending(e)} + multiset{w});
    assert s.running == {e};
    UnsentExecs(s, e, s');
    NoControlWhileRunning(ids, s);
    assert forall x :: x in s'.pending ==> x == w || x in s.pending;
    assert Completing in s'.pending <==> Completing in s.pending;
    assert w in s'.pending;
    assert OfflineWave(s');
  }

  lemma NoControlWhileRunning(ids: seq<Id>, s: Job)
    requires Waves(ids, s) && Execs(s) && Control(s) && s.running != {}
    ensures forall x :: x in s.pending ==> !IsControl(x)
    ensures Out(s) && !Idle(s)
  {
    var e :| e in s.running;
    Geometry(ids, s);
  }

  lemma UnsentExecs(s: Job, e: Id, s': Job)
    requires Execs(s) && Sending(e) in s.pending && e in s.running && !ResultPending(s, e)
    requires s.currentBatch < |s.batches| && s.batches[s.currentBatch] == [e]
    requires s' == s.(running := s.running - {e},
                      pending := s.pending - multiset{Sending(e)} + multiset{Write(e, Failed, ThenFinish)})
    ensures Execs(s')
  {
    var w := Write(e, Failed, ThenFinish);
    NoWrites(s, e);
    assert forall x :: IsWrite(x) && x in s'.pending ==> x == w;
    assert s'.pending[w] == 1 && WriteOk(s', w);
    UnsentLog(s, e, s');
  }

  /** While the only execution of a wave is being sent and has no result, no status write is outstanding. */
  lemma NoWrites(s: Job, e: Id)
    requires Execs(s) && Sending(e) in s.pending && e in s.running && !ResultPending(s, e)
    requires s.currentBatch < |s.batches| && s.batches[s.currentBatch] == [e]
    ensures forall x :: x in s.pending ==> !IsWrite(x)
  {
    forall x | x in s.pending ensures !IsWrite(x) {
      if IsWrite(x) {
        WriteMeans(s, x);
      }
    }
  }

  lemma WriteMeans(s: Job, x: Task)
    requires Execs(s) && x in s.pending && IsWrite(x)
    ensures Out(s) && x.e in s.batches[s.currentBatch]
    ensures x.next.ThenSend? ==> Sending(x.e) !in s.pending
    ensures x.next.ThenFinish? ==> x.e !in s.running
  {
    assert WriteOk(s, x);
  }

  lemma UnsentLog(s: Job, e: Id, s': Job)
    requires Execs(s)
    requires s' == s.(running := s.running - {e},
                      pending := s.pending - multiset{Sending(e)} + multiset{Write(e, Failed, ThenFinish)})
    ensures forall x :: x in s'.log && x !in s'.running && !Final(s'.db[x]) ==> Write(x, Failed, ThenFinish) in s'.pending
  {
    forall x | x in s'.log && x !in s'.running && !Final(s'.db[x])
      ensures Write(x, Failed, ThenFinish) in s'.pending
    {
      assert x == e || Write(x, Failed, ThenFinish) in s.pending;
    }
  }

  lemma SendingRoll(cfg: Config, ids: seq<Id>, s: Job, e: Id, online: set<Id>, sent: bool)
    requires Inv(cfg, ids, s) && Sending(e) in s.pending
    requires CleanStep(s, Resume(Sending(e), online, sent))
    ensures Roll(cfg, ids, AfterSend(Take(s, Sending(e)), e, sent))
    ensures Driven(AfterSend(Take(s, Sending(e)), e, sent))
  {
    if sent {
      ShapeRoll(cfg, ids, s, Take(s, Sending(e)));
    } else {
      UnsentRoll(cfg, ids, s, e);
    }
  }

  /** A state between two waves with nothing outstanding that the waves depend on. */
  ghost predicate Between(cfg: Config, ids: seq<Id>, s: Job) {
    && Waves(ids, s)
    && Idle(s)
    && Settled(s)
    && (forall x :: x in s.pending ==> !IsControl(x))
    && (forall e :: e in s.log ==> e in s.db && Final(s.db[e]))
    && WithinBudget(cfg, s.db, Upto(s, s.currentBatch))
    && s.completions == 0 && s.live && Completing !in s.pending
  }

  lemma WaveOnline(cfg: Config, ids: seq<Id>, s: Job, online: set<Id>)
    requires Between(cfg, ids, s) && !s.aborted && s.currentBatch < |s.batches|
    requires SetOf(s.batches[s.currentBatch]) <= online
    requires forall e :: e in s.batches[s.currentBatch] ==> e in s.db && e !in s.inflight && Sending(e) !in s.pending
    ensures Roll(cfg, ids, RunWave(s, online)) && Driven(RunWave(s, online))
  {
    Geometry(ids, s);
    var wave := s.batches[s.currentBatch];
    DispatchOnline(s, wave, online);
    var s' := RunWave(s, online);
    assert AllSent(s, wave, s');
    WaveOnlineExecs(s, wave, s');
    assert forall x :: IsControl(x) || x.Completing? ==> s'.pending[x] == s.pending[x];
    assert forall x :: x in s'.pending && IsControl(x) ==> x in s.pending;
    assert wave[0] in s'.running;
  }

  lemma WaveOnlineExecs(s: Job, wave: seq<Id>, s': Job)
    requires AllSent(s, wave, s') && Idle(s) && Settled(s)
    requires s.currentBatch < |s.batches| && wave == s.batches[s.currentBatch]
    requires forall e :: e in wave ==> e in s.db && e !in s.inflight && Sending(e) !in s.pending
    requires forall e :: e in s.log ==> e in s.db && Final(s.db[e])
    ensures Execs(s')
  {
    assert Out(s');
    forall x | x in s'.pending && IsWrite(x) ensures s'.pending[x] == 1 && WriteOk(s', x)
    {
      assert s.pending[x] == 0;
      assert s'.pending[Sending(x.e)] == s.pending[Sending(x.e)];
    }
  }

  lemma WaveOffline(cfg: Config, ids: seq<Id>, s: Job, online: set<Id>)
    requires Between(cfg, ids, s) && !s.aborted && s.currentBatch < |s.batches|
    requires |s.batches[s.currentBatch]| == 1 && s.batches[s.currentBatch][0] !in online
    requires s.batches[s.currentBatch][0] in s.db
    ensures Roll(cfg, ids, RunWave(s, online)) && Driven(RunWave(s, online))
  {
    OfflineState(s, online);
    OfflineRoll(cfg, ids, s, RunWave(s, online));
  }

  lemma OfflineState(s: Job, online: set<Id>)
    requires s.live && !s.aborted && s.currentBatch < |s.batches|
    requires |s.batches[s.currentBatch]| == 1 && s.batches[s.currentBatch][0] !in online
    ensures var wave, s' := s.batches[s.currentBatch], RunWave(s, online);
            s' == s.(queue := s'.queue, log := s.log + wave, pending := s.pending + multiset{Write(wave[0], Failed, ThenFinish)})
  {
    var wave := s.batches[s.currentBatch];
    assert wave == [wave[0]] && wave[1..] == [];
    assert RunWave(s, online) == DispatchAll(Dispatch(s, wave[0], online), [], online) == Dispatch(s, wave[0], online);
  }

  lemma OfflineRoll(cfg: Config, ids: seq<Id>, s: Job, s': Job)
    requires Between(cfg, ids, s) && s.currentBatch < |s.batches| && |s.batches[s.currentBatch]| == 1
    requires var wave := s.batches[s.currentBatch];
             && wave[0] in s.db
             && s' == s.(queue := s'.queue, log := s.log + wave, pending := s.pending + multiset{Write(wave[0], Failed, ThenFinish)})
    ensures Roll(cfg, ids, s') && Driven(s')
  {
    Geometry(ids, s);
    var w := Write(s.batches[s.currentBatch][0], Failed, ThenFinish);
    assert w in s'.pending;
    assert forall x :: x in s'.pending ==> x == w || x in s.pending;
    assert WriteOk(s', w);
    assert Execs(s');
  }

  lemma WaveRoll(cfg: Config, ids: seq<Id>, s: Job, online: set<Id>)
    requires Between(cfg, ids, s) && General(ids, s) && !s.aborted && s.currentBatch < |s.batches|
    requires |s.batches[s.currentBatch]| > 1 ==> SetOf(s.batches[s.currentBatch]) <= online
    ensures Roll(cfg, ids, RunWave(s, online)) && Driven(RunWave(s, online))
  {
    Geometry(ids, s);
    var wave := s.batches[s.currentBatch];
    forall e | e in wave ensures e in s.db && e !in s.inflight && Sending(e) !in s.pending {
      assert e !in s.log && e in ids;
      assert Sending(e) in s.pending ==> TaskOk(ids, s, Sending(e));
    }
    if SetOf(wave) <= online {
      WaveOnline(cfg, ids, s, online);
    } else {
      var e :| e in SetOf(wave) && e !in online;
      WaveOffline(cfg, ids, s, online);
    }
  }

  /** Between two waves the invariant itself holds, except that a caller must still drive the job on. */
  lemma BetweenRoll(cfg: Config, ids: seq<Id>, s: Job)
    requires Between(cfg, ids, s)
    ensures Roll(cfg, ids, s)
  {
  }

  lemma SettledFinal(s: Job)
    requires Execs(s) && Settled(s)
    ensures forall e :: e in s.log ==> e in s.db && Final(s.db[e])
  {
  }

  lemma IdleSettled(ids: seq<Id>, s: Job)
    requires Waves(ids, s) && Execs(s) && Idle(s)
    ensures Settled(s)
  {
    if s.currentBatch < |s.batches| {
      Geometry(ids, s);
    }
  }

  /** Only one control task is ever outstanding, so taking it leaves none. */
  lemma TakeControl(s: Job, t: Task)
    requires Control(s) && Completion(s) && t in s.pending && IsControl(t)
    ensures forall x :: x in Take(s, t).pending ==> x in s.pending && !IsControl(x)
    ensures Completing in Take(s, t).pending <==> Completing in s.pending
  {
  }

  lemma StartBetween(cfg: Config, ids: seq<Id>, s: Job, t: Task)
    requires Inv(cfg, ids, s) && t in s.pending && (t.Starting? || t.WaveTimer?)
    ensures s.currentBatch < |s.batches| && Between(cfg, ids, Take(s, t))
  {
    assert ControlOk(s, t);
    IdleSettled(ids, s);
    SettledFinal(s);
    TakeControl(s, t);
  }

  lemma StartRoll(cfg: Config, ids: seq<Id>, s: Job, t: Task, online: set<Id>)
    requires Inv(cfg, ids, s) && t in s.pending && (t.Starting? || t.WaveTimer?)
    requires CleanStep(s, Resume(t, online, true))
    ensures Roll(cfg, ids, RunWave(Take(s, t), online)) && Driven(RunWave(Take(s, t), online))
  {
    StartBetween(cfg, ids, s, t);
    TakeKeeps(ids, s, t);
    if s.aborted {
      BetweenRoll(cfg, ids, Take(s, t));
    } else {
      WaveRoll(cfg, ids, Take(s, t), online);
    }
  }

  /** The evaluated wave, with its evaluation taken off the list of awaits. */
  ghost predicate Evaluated(cfg: Config, ids: seq<Id>, s: Job) {
    && Waves(ids, s)
    && Out(s)
    && Settled(s)
    && (forall x :: x in s.pending ==> !IsControl(x))
    && (forall e :: e in s.log ==> e in s.db && Final(s.db[e]))
    && WithinBudget(cfg, s.db, Upto(s, s.currentBatch))
    && s.completions == 0 && s.live && Completing !in s.pending
  }

  lemma CountedEvaluated(cfg: Config, ids: seq<Id>, s: Job, failures: nat, total: nat)
    requires Inv(cfg, ids, s) && Counted(failures, total) in s.pending
    ensures Evaluated(cfg, ids, Take(s, Counted(failures, total)))
    ensures failures == |FailedRows(s.db, s.batches[s.currentBatch])|
    ensures total == |Rows(s.db, s.batches[s.currentBatch])|
  {
    var t := Counted(failures, total);
    assert ControlOk(s, t);
    Geometry(ids, s);
    SettledFinal(s);
    TakeControl(s, t);
  }

  lemma AbortEvaluated(cfg: Config, ids: seq<Id>, s: Job)
    requires Evaluated(cfg, ids, s)
    ensures Roll(cfg, ids, Abort(s)) && Driven(Abort(s))
  {
    Geometry(ids, s);
    var s' := Abort(s);
    assert forall x :: x in s'.pending ==> x.Skipping? || x in s.pending;
  }

  lemma AdvanceEvaluated(cfg: Config, ids: seq<Id>, s: Job)
    requires Evaluated(cfg, ids, s)
    requires !OverThreshold(cfg, |FailedRows(s.db, s.batches[s.currentBatch])|, |Rows(s.db, s.batches[s.currentBatch])|)
    ensures Between(cfg, ids, s.(currentBatch := s.currentBatch + 1))
  {
    Geometry(ids, s);
    var done, wave := Upto(s, s.currentBatch), s.batches[s.currentBatch];
    FlattenSplit(s.batches, s.currentBatch + 1);
    NoDupSplit(done + wave, Flatten(s.batches[s.currentBatch + 1..]));
    BudgetGrows(cfg, s.db, done, wave);
  }

  lemma BetweenComplete(cfg: Config, ids: seq<Id>, s: Job)
    requires Between(cfg, ids, s) && s.currentBatch == |s.batches|
    ensures Roll(cfg, ids, Complete(s)) && Driven(Complete(s))
  {
    var s' := Complete(s);
    assert forall x :: x in s'.pending ==> x == Completing || x in s.pending;
  }

  lemma BetweenTimer(cfg: Config, ids: seq<Id>, s: Job)
    requires Between(cfg, ids, s) && s.currentBatch < |s.batches|
    ensures Roll(cfg, ids, Pause(s)) && Driven(Pause(s))
  {
    var s' := Pause(s);
    assert forall x :: x in s'.pending ==> x == WaveTimer || x in s.pending;
    assert s'.pending[WaveTimer] == 1 && WaveTimer in s'.pending;
    assert Settled(s') && IsControl(WaveTimer);
  }

  lemma DecideRoll(cfg: Config, ids: seq<Id>, s: Job, failures: nat, total: nat, online: set<Id>)
    requires Inv(cfg, ids, s) && Counted(failures, total) in s.pending
    requires CleanStep(s, Resume(Counted(failures, total), online, true))
    ensures Roll(cfg, ids, Decide(cfg, Take(s, Counted(failures, total)), failures, total, online))
    ensures Driven(Decide(cfg, Take(s, Counted(failures, total)), failures, total, online))
  {
    CountedEvaluated(cfg, ids, s, failures, total);
    TakeKeeps(ids, s, Counted(failures, total));
    DecideEvaluated(cfg, ids, Take(s, Counted(failures, total)), failures, total, online);
  }

  lemma DecideEvaluated(cfg: Config, ids: seq<Id>, s: Job, failures: nat, total: nat, online: set<Id>)
    requires Evaluated(cfg, ids, s) && General(ids, s)
    requires failures == |FailedRows(s.db, s.batches[s.currentBatch])|
    requires total == |Rows(s.db, s.batches[s.currentBatch])|
    requires s.currentBatch + 1 < |s.batches| && |s.batches[s.currentBatch + 1]| > 1
             ==> SetOf(s.batches[s.currentBatch + 1]) <= online
    ensures Roll(cfg, ids, Decide(cfg, s, failures, total, online))
    ensures Driven(Decide(cfg, s, failures, total, online))
  {
    if OverThreshold(cfg, failures, total) {
      AbortEvaluated(cfg, ids, s);
    } else {
      AdvanceEvaluated(cfg, ids, s);
      AdvanceKeeps(ids, s);
      var s1 := s.(currentBatch := s.currentBatch + 1);
      assert s1.(currentBatch := s1.currentBatch - 1) == s;
      AdvancedRoll(cfg, ids, s1, failures, total, online);
    }
  }

  lemma AdvancedRoll(cfg: Config, ids: seq<Id>, s1: Job, failures: nat, total: nat, online: set<Id>)
    requires Between(cfg, ids, s1) && General(ids, s1) && s1.currentBatch > 0
    requires s1.currentBatch < |s1.batches| && |s1.batches[s1.currentBatch]| > 1
             ==> SetOf(s1.batches[s1.currentBatch]) <= online
    requires !OverThreshold(cfg, failures, total)
    ensures Roll(cfg, ids, Decide(cfg, s1.(currentBatch := s1.currentBatch - 1), failures, total, online))
    ensures Driven(Decide(cfg, s1.(currentBatch := s1.currentBatch - 1), failures, total, online))
  {
    var s0 := s1.(currentBatch := s1.currentBatch - 1);
    assert s0.(currentBatch := s0.currentBatch + 1) == s1;
    assert s1.currentBatch <= |s1.batches|;
    hide Roll, Driven, OverThreshold, Complete, Pause, RunWave;
    if s1.currentBatch == |s1.batches| {
      BetweenComplete(cfg, ids, s1);
    } else if cfg.waits {
      BetweenTimer(cfg, ids, s1);
    } else if s1.aborted {
      BetweenRoll(cfg, ids, s1);
    } else {
      WaveRoll(cfg, ids, s1, online);
    }
  }

  lemma CompletingRoll(cfg: Config, ids: seq<Id>, s: Job)
    requires Inv(cfg, ids, s) && Completing in s.pending
    ensures Roll(cfg, ids, Take(s, Completing).(live := false)) && Driven(Take(s, Completing).(live := false))
  {
    var s' := Take(s, Completing).(live := false);
    assert forall x :: x != Completing ==> s'.pending[x] == s.pending[x];
    CompletingExecs(s, s');
    AllWaves(ids, s);
    assert forall t :: t in s'.pending ==> t in s.pending;
  }

  lemma CompletingExecs(s: Job, s': Job)
    requires Execs(s) && s' == s.(live := s'.live, pending := s'.pending)
    requires forall x :: x != Completing ==> s'.pending[x] == s.pending[x]
    ensures Execs(s')
  {
    forall t | t in s'.pending && IsWrite(t) ensures s'.pending[t] == 1 && WriteOk(s', t) {
      assert t in s.pending && WriteOk(s, t);
    }
  }

  lemma ReportRoll(cfg: Config, ids: seq<Id>, s: Job, e: Id, st: Status)
    requires Inv(cfg, ids, s) && Enabled(s, Report(e, st)) && CleanStep(s, Report(e, st))
    ensures Roll(cfg, ids, Await(s, Write(e, st, ThenFinishReported)))
    ensures Driven(Await(s, Write(e, st, ThenFinishReported)))
  {
    var w := Write(e, st, ThenFinishReported);
    var s' := Await(s, w);
    NoControlWhileRunning(ids, s);
    ReportExecs(s, e, st);
    assert forall x :: x in s'.pending ==> x == w || x in s.pending;
    assert Completing in s'.pending <==> Completing in s.pending;
  }

  lemma ReportExecs(s: Job, e: Id, st: Status)
    requires Execs(s) && e in s.running && e in s.inflight && Final(st) && !ResultPending(s, e)
    ensures Execs(Await(s, Write(e, st, ThenFinishReported)))
  {
    var w := Write(e, st, ThenFinishReported);
    var s' := Await(s, w);
    forall x | x in s.pending && IsWrite(x) ensures x.e != e {
      assert WriteOk(s, x);
    }
    assert e in s.log;
    assert forall x :: x in s'.pending ==> x == w || (x in s.pending && s'.pending[x] == s.pending[x]);
    forall x | x in s'.pending && IsWrite(x) ensures s'.pending[x] == 1 && WriteOk(s', x) {
      if x != w {
        assert WriteOk(s, x);
      }
    }
  }

  // --- every step, every run ---

  lemma ResumeRoll(cfg: Config, ids: seq<Id>, s: Job, t: Task, online: set<Id>, sent: bool)
    requires Inv(cfg, ids, s) && cfg.mode.Rolling? && t in s.pending && !NeedsCommit(t)
    requires CleanStep(s, Resume(t, online, sent))
    ensures Roll(cfg, ids, ResumeTask(cfg, s, t, online, sent)) && Driven(ResumeTask(cfg, s, t, online, sent))
  {
    match t
    case Written(e, st, next) => WrittenRoll(cfg, ids, s, e, st, next, online);
    case Sending(e) => SendingRoll(cfg, ids, s, e, online, sent);
    case Starting => StartRoll(cfg, ids, s, t, online);
    case WaveTimer => StartRoll(cfg, ids, s, t, online);
    case Counted(failures, total) => DecideRoll(cfg, ids, s, failures, total, online);
    case SkipDone => ShapeRoll(cfg, ids, s, Take(s, t).(queue := []));
    case Completing => CompletingRoll(cfg, ids, s);
  }

  lemma StepRoll(cfg: Config, ids: seq<Id>, s: Job, step: Step)
    requires Inv(cfg, ids, s) && cfg.mode.Rolling? && Enabled(s, step) && CleanStep(s, step)
    ensures Inv(cfg, ids, Next(cfg, s, step))
  {
    StepKeeps(cfg, ids, s, step);
    match step
    case Commit(t) => CommitRoll(cfg, ids, s, t);
    case Resume(t, online, sent) => ResumeRoll(cfg, ids, s, t, online, sent);
    case Report(e, st) => ReportRoll(cfg, ids, s, e, st);
    case UserAbort => AbortRoll(cfg, ids, s);
  }

  lemma {:induction false} RunRoll(cfg: Config, ids: seq<Id>, from: Job, steps: seq<Step>, s: Job)
    requires Inv(cfg, ids, from) && cfg.mode.Rolling? && CleanRun(cfg, from, steps, s)
    ensures Inv(cfg, ids, s) && s.batches == from.batches
    decreases |steps|
  {
    if steps == [] {
    } else {
      StepRoll(cfg, ids, from, steps[0]);
      StepFrame(cfg, from, steps[0]);
      RunRoll(cfg, ids, Next(cfg, from, steps[0]), steps[1..], s);
    }
  }

  ghost predicate RollingRun(cfg: Config, ids: seq<Id>, waves: seq<seq<Id>>, steps: seq<Step>, s: Job) {
    && cfg.mode.Rolling?
    && Startable(cfg, ids, waves) && ids != []
    && CleanRun(cfg, InitialJob(cfg, ids, waves), steps, s)
  }

  lemma ReachableRoll(cfg: Config, ids: seq<Id>, waves: seq<seq<Id>>, steps: seq<Step>, s: Job)
    requires RollingRun(cfg, ids, waves, steps, s)
    ensures Inv(cfg, ids, s) && s.batches == waves
  {
    var s0 := InitialJob(cfg, ids, waves);
    assert forall e :: e in LaterWaves(s0) ==> e !in s0.log;
    assert Upto(s0, 0) == [];
    assert FailedRows(s0.db, []) == {};
    assert s0.pending[Starting] == 1 && Starting in s0.pending && IsControl(Starting);
    RunRoll(cfg, ids, s0, steps, s);
  }

  // --- the theorems ---

  ghost predicate BarrierHolds(waves: seq<seq<Id>>, s: Job) {
    && s.currentBatch <= |waves|
    && (s.log == Flatten(waves[..s.currentBatch])
        || (s.currentBatch < |waves| && s.log == Flatten(waves[..s.currentBatch + 1])))
    && NoDup(s.log)
    && (s.running != {} ==> s.currentBatch < |waves| && s.running <= SetOf(waves[s.currentBatch]))
    && (forall k, e :: 0 <= k < s.currentBatch && e in waves[k] ==> e in s.db && Final(s.db[e]))
    && (forall k, e :: s.currentBatch < k < |waves| && e in waves[k] ==> e !in s.log && (s.aborted || e in s.queue))
  }

  /** The waves form a barrier. Waves run in order and every execution is dispatched at most once;
      `running` lies inside the current wave; every execution of an earlier wave has its final
      status; no execution of a later wave was dispatched, and all of them are still queued unless
      an abort emptied the queue. */
  lemma Barrier(cfg: Config, ids: seq<Id>, waves: seq<seq<Id>>, steps: seq<Step>, s: Job)
    requires RollingRun(cfg, ids, waves, steps, s)
    ensures BarrierHolds(waves, s)
  {
    ReachableRoll(cfg, ids, waves, steps, s);
    if s.currentBatch < |waves| {
      Geometry(ids, s);
    }
    LogIsPrefix(ids, s);
    EarlierSettled(cfg, ids, s);
    LaterQueued(ids, s);
  }

  lemma LogIsPrefix(ids: seq<Id>, s: Job)
    requires Waves(ids, s) && (Idle(s) || Out(s))
    ensures s.log <= ids && NoDup(s.log)
  {
    var k := if Idle(s) then s.currentBatch else s.currentBatch + 1;
    if Out(s) {
      Geometry(ids, s);
    }
    FlattenSplit(s.batches, k);
    assert ids == s.log + Flatten(s.batches[k..]);
    NoDupSplit(s.log, Flatten(s.batches[k..]));
  }

  lemma EarlierSettled(cfg: Config, ids: seq<Id>, s: Job)
    requires Inv(cfg, ids, s)
    ensures forall k, e :: 0 <= k < s.currentBatch && e in s.batches[k] ==> e in s.db && Final(s.db[e])
  {
    var done := s.batches[..s.currentBatch];
    forall k, e | 0 <= k < s.currentBatch && e in s.batches[k] ensures e in s.db && Final(s.db[e]) {
      InFlatten(done, e);
      assert done[k] == s.batches[k];
      SettledIn(cfg, ids, s, e);
    }
  }

  lemma SettledIn(cfg: Config, ids: seq<Id>, s: Job, e: Id)
    requires Inv(cfg, ids, s) && e in Upto(s, s.currentBatch)
    ensures e in s.db && Final(s.db[e])
  {
    assert e in s.log;
    if s.currentBatch < |s.batches| {
      Geometry(ids, s);
    } else {
      AllWaves(ids, s);
    }
    assert e !in s.running;
    assert Write(e, Failed, ThenFinish) in s.pending ==> WriteOk(s, Write(e, Failed, ThenFinish));
  }

  lemma LaterQueued(ids: seq<Id>, s: Job)
    requires General(ids, s) && Waves(ids, s)
    ensures forall k, e :: s.currentBatch < k < |s.batches| && e in s.batches[k] ==>
              e !in s.log && (s.aborted || e in s.queue)
  {
    WaveMembers(s, ids);
    forall k, e | s.currentBatch < k < |s.batches| && e in s.batches[k]
      ensures e !in s.log && (s.aborted || e in s.queue)
    {
      var later := s.batches[s.currentBatch + 1..];
      InFlatten(later, e);
      assert later[k - s.currentBatch - 1] == s.batches[k];
      assert e in LaterWaves(s);
    }
  }

  function FailedIn(db: map<Id, Status>): set<Id> { set e | e in db && db[e] == Failed }

  ghost predicate JobWithinBudget(cfg: Config, ids: seq<Id>, db: map<Id, Status>) {
    cfg.stopOnFailurePercent.Some? && cfg.stopOnFailurePercent.value != 0.0 ==>
      |FailedIn(db)| as real * 100.0 <= cfg.stopOnFailurePercent.value * |ids| as real
  }

  lemma WholeBudget(cfg: Config, ids: seq<Id>, db: map<Id, Status>)
    requires WithinBudget(cfg, db, ids) && db.Keys == SetOf(ids)
    ensures JobWithinBudget(cfg, ids, db)
  {
    assert FailedRows(db, ids) == FailedIn(db);
  }

  /** A rolling job that reaches `completeJob` has settled every target, and its failures stay
      within the threshold taken over all targets. */
  lemma FailureBudget(cfg: Config, ids: seq<Id>, waves: seq<seq<Id>>, steps: seq<Step>, s: Job)
    requires RollingRun(cfg, ids, waves, steps, s) && s.completions > 0
    ensures s.log == ids && s.completions == 1
    ensures forall e :: e in ids ==> e in s.db && Final(s.db[e])
    ensures JobWithinBudget(cfg, ids, s.db)
  {
    ReachableRoll(cfg, ids, waves, steps, s);
    FinishedJob(cfg, ids, s);
  }

  lemma FinishedJob(cfg: Config, ids: seq<Id>, s: Job)
    requires Inv(cfg, ids, s) && s.completions > 0
    ensures s.log == ids && s.completions == 1
    ensures forall e :: e in ids ==> e in s.db && Final(s.db[e])
    ensures JobWithinBudget(cfg, ids, s.db)
  {
    AllWaves(ids, s);
    AllSettled(cfg, ids, s);
    WholeBudget(cfg, ids, s.db);
  }

  lemma AllSettled(cfg: Config, ids: seq<Id>, s: Job)
    requires Inv(cfg, ids, s) && s.completions > 0
    ensures s.log == ids && forall e :: e in ids ==> e in s.db && Final(s.db[e])
  {
    AllWaves(ids, s);
    IdleSettled(ids, s);
    SettledFinal(s);
  }

  /** No rolling job gets stuck: with no await outstanding and nothing running, it was aborted or
      it has been completed. */
  lemma QuietMeansDone(cfg: Config, ids: seq<Id>, waves: seq<seq<Id>>, steps: seq<Step>, s: Job)
    requires RollingRun(cfg, ids, waves, steps, s)
    requires s.pending == multiset{} && s.running == {} && !s.aborted
    ensures s.completions == 1 && !s.live
  {
    ReachableRoll(cfg, ids, waves, steps, s);
  }
}
