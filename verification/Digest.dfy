/** The notification digest: which buffered items a mail carries, and what happens to the buffer around a send. */
module Digest {

  import opened Wrappers

  /** `note` stands for the text of a notification. */
  datatype Item = Item(event: string, machineId: Option<string>, note: string)

  /** Events of which only the latest per machine matters. */
  const LATEST_PER_MACHINE: set<string> :=
    {"machineUpdatesAvailable", "scanCompleted", "agentOffline", "serverUpdateAvailable", "highCve", "criticalCve"}

  predicate Recurring(item: Item) { item.event in LATEST_PER_MACHINE }

  function MachineOf(item: Item): string { if item.machineId.Some? then item.machineId.value else "_global" }

  function Key(item: Item): string { item.event + "::" + MachineOf(item) }

  predicate SameKey(a: Item, b: Item) { Recurring(a) && Recurring(b) && Key(a) == Key(b) }

  /** A later item reports on the same recurring event of the same machine. */
  predicate Superseded(item: Item, later: seq<Item>) { exists j :: 0 <= j < |later| && SameKey(item, later[j]) }

  /** Every item that no later one supersedes, in order. */
  function Dedup(items: seq<Item>): (kept: seq<Item>)
    ensures |kept| <= |items|
  {
    if items == [] then []
    else if Superseded(items[0], items[1..]) then Dedup(items[1..])
    else [items[0]] + Dedup(items[1..])
  }

  // --- the keys ---

  lemma EventsAreWords(event: string)
    requires event in LATEST_PER_MACHINE
    ensures ':' !in event
  {
  }

  /** Two recurring items share a key exactly when they share the event and the machine. */
  lemma KeyMeans(a: Item, b: Item)
    requires Recurring(a) && Recurring(b)
    ensures Key(a) == Key(b) <==> a.event == b.event && MachineOf(a) == MachineOf(b)
  {
    EventsAreWords(a.event);
    EventsAreWords(b.event);
    if Key(a) == Key(b) {
      EventLength(a, b);
      EventLength(b, a);
      var n := |a.event|;
      assert a.event == Key(a)[..n] && b.event == Key(b)[..n];
      assert MachineOf(a) == Key(a)[n + 2..] && MachineOf(b) == Key(b)[n + 2..];
    }
  }

  lemma EventLength(a: Item, b: Item)
    requires Key(a) == Key(b) && ':' !in b.event
    ensures |a.event| >= |b.event|
  {
    var n := |a.event|;
    assert Key(a)[n] == ':';
    if n < |b.event| {
      ColonFree(b, n);
    }
  }

  lemma ColonFree(b: Item, n: nat)
    requires ':' !in b.event && n < |b.event|
    ensures Key(b)[n] != ':'
  {
    assert Key(b)[n] == b.event[n];
  }

  // --- deduplication ---

  function Reversed(items: seq<Item>): seq<Item> {
    if items == [] then [] else [items[|items| - 1]] + Reversed(items[..|items| - 1])
  }

  lemma ReversedSnoc(items: seq<Item>, x: Item)
    ensures Reversed(items + [x]) == [x] + Reversed(items)
  {
    assert (items + [x])[..|items|] == items;
  }

  lemma SupersededIff(item: Item, next: Item, later: seq<Item>)
    ensures Superseded(item, [next] + later) <==> SameKey(item, next) || Superseded(item, later)
  {
    if Superseded(item, later) {
      var j :| 0 <= j < |later| && SameKey(item, later[j]);
      assert ([next] + later)[j + 1] == later[j];
    }
    assert ([next] + later)[0] == next;
    if Superseded(item, [next] + later) && !SameKey(item, next) {
      var j :| 0 <= j < |[next] + later| && SameKey(item, ([next] + later)[j]);
      assert later[j - 1] == ([next] + later)[j];
    }
  }

  /** Walks from the newest item to the oldest and turns the result around at the end. */
  method DeduplicateDigestItems(items: seq<Item>) returns (kept: seq<Item>)
    ensures kept == Dedup(items)
  {
    var seen: map<string, nat> := map[];
    var result: seq<Item> := [];
    for i := |items| downto 0
      invariant Reversed(result) == Dedup(items[i..])
      invariant forall x: Item :: Recurring(x) ==> (Key(x) in seen <==> Superseded(x, items[i..]))
    {
      var item := items[i];
      assert items[i..] == [item] + items[i + 1..];
      forall x: Item | Recurring(x)
        ensures Superseded(x, items[i..]) <==> SameKey(x, item) || Superseded(x, items[i + 1..])
      {
        SupersededIff(x, item, items[i + 1..]);
      }
      ReversedSnoc(result, item);
      if Recurring(item) {
        if Key(item) !in seen {
          seen := seen[Key(item) := |result|];
          result := result + [item];
        }
      } else {
        result := result + [item];
      }
    }
    assert items[0..] == items;
    return Reversed(result);
  }

  /** The positions of the kept items. */
  function Positions(items: seq<Item>): seq<nat> {
    if items == [] then []
    else
      var later := Shifted(Positions(items[1..]));
      if Superseded(items[0], items[1..]) then later else [0] + later
  }

  function Shifted(at: seq<nat>): (r: seq<nat>)
    ensures |r| == |at|
  {
    seq(|at|, k requires 0 <= k < |at| => at[k] + 1)
  }

  lemma {:induction false} AsManyPositions(items: seq<Item>)
    ensures |Positions(items)| == |Dedup(items)|
  {
    if items == [] {
    } else {
      AsManyPositions(items[1..]);
    }
  }

  lemma ShiftedAt(items: seq<Item>, at: seq<nat>, k: nat)
    requires items != [] && k < |at| && at[k] < |items[1..]|
    ensures Shifted(at)[k] < |items| && items[Shifted(at)[k]] == items[1..][at[k]]
  {
  }

  /** The k-th kept item is the one at the k-th position. */
  lemma {:induction false} KeptAt(items: seq<Item>, k: nat)
    requires k < |Dedup(items)|
    ensures k < |Positions(items)| && Positions(items)[k] < |items| && Dedup(items)[k] == items[Positions(items)[k]]
  {
    AsManyPositions(items);
    AsManyPositions(items[1..]);
    hide Superseded, Shifted;
    var rest, later := items[1..], Positions(items[1..]);
    if Superseded(items[0], rest) {
      KeptAt(rest, k);
      assert Positions(items) == Shifted(later) && Dedup(items) == Dedup(rest);
      ShiftedAt(items, later, k);
    } else if k > 0 {
      KeptAt(rest, k - 1);
      assert Positions(items) == [0] + Shifted(later) && Dedup(items) == [items[0]] + Dedup(rest);
      ShiftedAt(items, later, k - 1);
    }
  }

  /** The kept items stand in their old order. */
  lemma {:induction false} KeptInOrder(items: seq<Item>, k: nat, l: nat)
    requires k < l < |Positions(items)|
    ensures Positions(items)[k] < Positions(items)[l]
  {
    if Superseded(items[0], items[1..]) {
      KeptInOrder(items[1..], k, l);
    } else if k > 0 {
      KeptInOrder(items[1..], k - 1, l - 1);
    }
  }

  /** Exactly the items that nothing newer supersedes are kept: all one-off items, and the last one of each key. */
  lemma {:induction false} KeptExactly(items: seq<Item>, i: nat)
    requires i < |items|
    ensures i in Positions(items) <==> !Superseded(items[i], items[i + 1..])
  {
    var later := Positions(items[1..]);
    if i > 0 {
      KeptExactly(items[1..], i - 1);
      assert items[1..][i - 1] == items[i] && items[1..][i..] == items[i + 1..];
      ShiftedIff(later, i);
    } else {
      ShiftedIff(later, 0);
    }
  }

  lemma ShiftedIff(at: seq<nat>, i: nat)
    ensures i in Shifted(at) <==> i > 0 && i - 1 in at
  {
    if i > 0 && i - 1 in at {
      var k :| 0 <= k < |at| && at[k] == i - 1;
      assert Shifted(at)[k] == i;
    }
  }

  lemma {:induction false} DedupKeepsKeys(items: seq<Item>, x: Item)
    ensures Superseded(x, Dedup(items)) <==> Superseded(x, items)
  {
    if items == [] {
    } else {
      DedupKeepsKeys(items[1..], x);
      assert items == [items[0]] + items[1..];
      SupersededIff(x, items[0], items[1..]);
      if Superseded(items[0], items[1..]) {
        if SameKey(x, items[0]) {
          var j :| 0 <= j < |items[1..]| && SameKey(items[0], items[1..][j]);
          assert SameKey(x, items[1..][j]);
        }
      } else {
        SupersededIff(x, items[0], Dedup(items[1..]));
      }
    }
  }

  lemma SupersededConcat(x: Item, a: seq<Item>, b: seq<Item>)
    ensures Superseded(x, a + b) <==> Superseded(x, a) || Superseded(x, b)
  {
    if Superseded(x, a) {
      var j :| 0 <= j < |a| && SameKey(x, a[j]);
      assert (a + b)[j] == a[j];
    }
    if Superseded(x, b) {
      var j :| 0 <= j < |b| && SameKey(x, b[j]);
      assert (a + b)[|a| + j] == b[j];
    }
    if Superseded(x, a + b) {
      var j :| 0 <= j < |a + b| && SameKey(x, (a + b)[j]);
      if j < |a| {
        assert SameKey(x, a[j]);
      } else {
        assert SameKey(x, b[j - |a|]);
      }
    }
  }

  lemma DedupHead(x: Item, rest: seq<Item>, b: seq<Item>, all: seq<Item>)
    requires all == [x] + rest + b
    ensures Dedup(all) == if Superseded(x, rest + b) then Dedup(rest + b) else [x] + Dedup(rest + b)
  {
    assert all[0] == x && all[1..] == rest + b;
  }

  /** Deduplicating early loses nothing: what is appended later gives the same digest. */
  lemma {:induction false} DedupEarly(a: seq<Item>, b: seq<Item>)
    ensures Dedup(a + b) == Dedup(Dedup(a) + b)
  {
    if a != [] {
      var x, rest := a[0], a[1..];
      DedupEarly(rest, b);
      assert (a + b)[0] == x && (a + b)[1..] == rest + b;
      hide Superseded;
      SupersededConcat(x, rest, b);
      if !Superseded(x, rest) {
        SupersededConcat(x, Dedup(rest), b);
        DedupKeepsKeys(rest, x);
        DedupHead(x, Dedup(rest), b, Dedup(a) + b);
      }
    } else {
      assert a + b == b;
      assert Dedup(a) + b == b;
    }
  }

  /** Every item is represented: it is kept itself, or a newer one with its key is. */
  lemma {:induction false} Represented(items: seq<Item>, i: nat) returns (j: nat)
    requires i < |items|
    ensures i <= j < |items| && j in Positions(items) && (j == i || SameKey(items[i], items[j]))
    decreases |items|, |items| - i
  {
    if i > 0 {
      j := Represented(items[1..], i - 1);
      j := j + 1;
      KeptLater(items, j);
    } else if Superseded(items[0], items[1..]) {
      var k :| 0 <= k < |items[1..]| && SameKey(items[0], items[1..][k]);
      j := Represented(items[1..], k);
      j := j + 1;
      KeptLater(items, j);
    } else {
      j := 0;
      assert Positions(items)[0] == 0;
    }
  }

  lemma KeptLater(items: seq<Item>, j: nat)
    requires 0 < j <= |items| && items != []
    ensures j in Positions(items) <==> j - 1 in Positions(items[1..])
  {
    hide Superseded;
    var later := Shifted(Positions(items[1..]));
    ShiftedIff(Positions(items[1..]), j);
    assert Positions(items) == later || Positions(items) == [0] + later;
  }

  /** A kept position's item is in the result. */
  lemma PositionIsKept(items: seq<Item>, j: nat)
    requires j in Positions(items)
    ensures j < |items| && items[j] in Dedup(items)
  {
    AsManyPositions(items);
    var k :| 0 <= k < |Positions(items)| && Positions(items)[k] == j;
    KeptAt(items, k);
  }

  // --- the buffer around a send ---

  /** Array.prototype.splice(0, n). */
  function Spliced(buffer: seq<Item>, n: nat): seq<Item> { buffer[if n < |buffer| then n else |buffer|..] }

  /** A mail, with the stretch of all items ever queued that the buffer held when it was prepared. */
  datatype Snapshot = Snapshot(mail: seq<Item>, start: nat, end: nat)

  /** The buffer together with what has been queued, is being sent and has been mailed so far. `begun` counts
      the sends that have found the buffer filled and have not taken their snapshot yet. */
  datatype State = State(buffer: seq<Item>, queued: seq<Item>, begun: nat, sending: seq<Snapshot>, mailed: seq<Snapshot>)

  /** Settings and recipients are fetched between `Begin` and `Prepare`; if there are none, the send gives up. */
  datatype Step =
    | Queue(item: Item)
    | Begin
    | GiveUp
    | Prepare
    | Sent(k: nat)
    | Failed(k: nat)

  const INITIAL := State([], [], 0, [], [])

  /** How many of the queued items have left the buffer. */
  function Cut(s: State): nat { if |s.buffer| <= |s.queued| then |s.queued| - |s.buffer| else 0 }

  predicate Enabled(s: State, step: Step) {
    match step
    case Queue(_) => true
    case Begin => s.buffer != []
    case GiveUp => s.begun > 0
    case Prepare => s.begun > 0
    case Sent(k) => k < |s.sending|
    case Failed(k) => k < |s.sending|
  }

  function Apply(s: State, step: Step): State
    requires Enabled(s, step)
  {
    match step
    case Queue(item) => s.(buffer := s.buffer + [item], queued := s.queued + [item])
    case Begin => s.(begun := s.begun + 1)
    case GiveUp => s.(begun := s.begun - 1)
    case Prepare =>
      s.(begun := s.begun - 1, sending := s.sending + [Snapshot(Dedup(s.buffer), Cut(s), |s.queued|)])
    case Sent(k) =>
      s.(buffer := Spliced(s.buffer, |s.sending[k].mail|),
         sending := s.sending[..k] + s.sending[k + 1..],
         mailed := s.mailed + [s.sending[k]])
    case Failed(k) => s.(sending := s.sending[..k] + s.sending[k + 1..])
  }

  /** The steps can be taken one after the other, each as the rule allows. */
  predicate CanRun(s: State, steps: seq<Step>, rule: (State, Step) -> bool)
    decreases |steps|
  {
    steps != [] ==> Enabled(s, steps[0]) && rule(s, steps[0]) && CanRun(Apply(s, steps[0]), steps[1..], rule)
  }

  function End(s: State, steps: seq<Step>, rule: (State, Step) -> bool): State
    requires CanRun(s, steps, rule)
    decreases |steps|
  {
    if steps == [] then s else End(Apply(s, steps[0]), steps[1..], rule)
  }

  predicate Any(s: State, step: Step) { true }

  /** One digest at a time: no send starts while another is under way. */
  predicate Solo(s: State, step: Step) { step.Begin? ==> s.begun == 0 && s.sending == [] }

  function LargestEnd(mails: seq<Snapshot>): nat {
    if mails == [] then 0
    else
      var rest, last := LargestEnd(mails[..|mails| - 1]), mails[|mails| - 1].end;
      if rest < last then last else rest
  }

  /** The delivery removes nothing that was queued after every delivered mail was prepared, its own included. */
  predicate Safe(s: State, step: Step) {
    step.Sent? && step.k < |s.sending| ==> CutAfter(s, step.k) <= LargestEnd(s.mailed + [s.sending[step.k]])
  }

  /** How many of the queued items will have left the buffer after the delivery. */
  function CutAfter(s: State, k: nat): nat
    requires k < |s.sending|
  {
    var n := |s.sending[k].mail|;
    Cut(s) + if n < |s.buffer| then n else |s.buffer|
  }

  // --- what a mail reports ---

  predicate Taken(s: State, m: Snapshot) {
    && m.start <= m.end <= |s.queued| && m.start <= Cut(s)
    && m.mail == Dedup(s.queued[m.start..m.end])
  }

  ghost predicate WellFormed(s: State) {
    && |s.buffer| <= |s.queued| && s.buffer == s.queued[Cut(s)..]
    && (forall k :: 0 <= k < |s.sending| ==> Taken(s, s.sending[k]))
    && (forall k :: 0 <= k < |s.mailed| ==> Taken(s, s.mailed[k]))
  }

  /** The q-th queued item is in the mail. */
  predicate Carries(s: State, m: Snapshot, q: nat) {
    m.start <= q < m.end <= |s.queued| && q - m.start in Positions(s.queued[m.start..m.end])
  }

  lemma CarriedIsMailed(s: State, m: Snapshot, q: nat)
    requires Taken(s, m) && Carries(s, m, q)
    ensures s.queued[q] in m.mail
  {
    var items := s.queued[m.start..m.end];
    hide Positions, Dedup;
    assert items[q - m.start] == s.queued[q];
    PositionIsKept(items, q - m.start);
  }

  /** The p-th queued item was mailed, or a newer item with its key was. */
  ghost predicate Reported(s: State, p: nat) { exists q: nat, k: nat :: ReportedBy(s, p, q, k) }

  predicate ReportedBy(s: State, p: nat, q: nat, k: nat) {
    && p <= q < |s.queued| && k < |s.mailed|
    && Carries(s, s.mailed[k], q)
    && (q == p || SameKey(s.queued[p], s.queued[q]))
  }

  /** Everything that has left the buffer was reported. */
  ghost predicate NothingLost(s: State) { forall p: nat :: p < Cut(s) ==> Reported(s, p) }

  lemma {:induction false} LargestEndIs(mails: seq<Snapshot>)
    ensures forall k :: 0 <= k < |mails| ==> mails[k].end <= LargestEnd(mails)
    ensures LargestEnd(mails) > 0 ==> exists k :: 0 <= k < |mails| && mails[k].end == LargestEnd(mails)
  {
    if mails == [] {
      assert LargestEnd(mails) == 0;
    } else {
      LargestEndIs(mails[..|mails| - 1]);
    }
  }

  /** What is reported lies below the end of a delivered mail. */
  lemma ReportedBelow(s: State, p: nat)
    requires Reported(s, p)
    ensures p < LargestEnd(s.mailed)
  {
    LargestEndIs(s.mailed);
    var q: nat, k: nat :| ReportedBy(s, p, q, k);
    assert q < s.mailed[k].end;
  }

  /** Everything that has left the buffer and lies below the end of a delivered mail is reported. */
  lemma BelowIsReported(s: State, p: nat, k: nat)
    requires k < |s.mailed| && s.mailed[k].start <= p < s.mailed[k].end <= |s.queued|
    ensures Reported(s, p)
  {
    hide Positions, SameKey;
    var m := s.mailed[k];
    var items := s.queued[m.start..m.end];
    assert items[p - m.start] == s.queued[p];
    var j := Represented(items, p - m.start);
    assert items[j] == s.queued[m.start + j];
    assert ReportedBy(s, p, m.start + j, k);
  }

  lemma TakenStays(s: State, s': State, m: Snapshot)
    requires Taken(s, m) && s.queued <= s'.queued && Cut(s) <= Cut(s')
    ensures Taken(s', m)
  {
    assert s'.queued[m.start..m.end] == s.queued[m.start..m.end];
  }

  lemma ReportedStays(s: State, s': State, p: nat)
    requires Reported(s, p) && s.queued <= s'.queued && s.mailed <= s'.mailed
    ensures Reported(s', p)
  {
    var q: nat, k: nat :| ReportedBy(s, p, q, k);
    var m := s.mailed[k];
    assert s'.mailed[k] == m;
    assert m.start <= q < m.end <= |s.queued|;
    assert s'.queued[m.start..m.end] == s.queued[m.start..m.end];
    assert ReportedBy(s', p, q, k);
  }

  lemma StepBuffer(s: State, step: Step)
    requires |s.buffer| <= |s.queued| && s.buffer == s.queued[Cut(s)..] && Enabled(s, step)
    ensures var s' := Apply(s, step);
            && |s'.buffer| <= |s'.queued| && s'.buffer == s'.queued[Cut(s')..]
            && Cut(s') == (if step.Sent? then CutAfter(s, step.k) else Cut(s))
            && s.queued <= s'.queued && s.mailed <= s'.mailed
    ensures s.queued[Cut(s)..|s.queued|] == s.buffer
  {
    hide Dedup;
  }

  lemma StepWellFormed(s: State, step: Step)
    requires WellFormed(s) && Enabled(s, step)
    ensures WellFormed(Apply(s, step)) && Cut(s) <= Cut(Apply(s, step))
    ensures step.Sent? ==> Cut(Apply(s, step)) == CutAfter(s, step.k)
    ensures !step.Sent? ==> Cut(Apply(s, step)) == Cut(s)
    ensures s.queued <= Apply(s, step).queued && s.mailed <= Apply(s, step).mailed
  {
    hide Dedup;
    var s' := Apply(s, step);
    StepBuffer(s, step);
    hide Cut;
    forall k | 0 <= k < |s.sending| ensures Taken(s', s.sending[k]) {
      TakenStays(s, s', s.sending[k]);
    }
    forall k | 0 <= k < |s.mailed| ensures Taken(s', s.mailed[k]) {
      TakenStays(s, s', s.mailed[k]);
    }
  }

  // --- when a delivery loses something ---

  /** Exactly when a delivery leaves nothing unreported, in a state in which nothing was lost so far: when it
      removes nothing that was queued after every delivered mail was prepared, its own included. */
  lemma DeliveryExactly(s: State, k: nat)
    requires WellFormed(s) && NothingLost(s) && k < |s.sending|
    ensures NothingLost(Apply(s, Sent(k))) <==> CutAfter(s, k) <= LargestEnd(s.mailed + [s.sending[k]])
  {
    var s' := Apply(s, Sent(k));
    StepWellFormed(s, Sent(k));
    if NothingLost(s') && CutAfter(s, k) > 0 {
      ReportedBelow(s', CutAfter(s, k) - 1);
    }
    if CutAfter(s, k) <= LargestEnd(s'.mailed) {
      SafeDelivery(s, k);
    }
  }

  lemma SafeDelivery(s: State, k: nat)
    requires WellFormed(s) && NothingLost(s) && Enabled(s, Sent(k)) && Safe(s, Sent(k))
    ensures NothingLost(Apply(s, Sent(k)))
  {
    var s' := Apply(s, Sent(k));
    StepWellFormed(s, Sent(k));
    forall p: nat | p < Cut(s') ensures Reported(s', p) {
      if p < Cut(s) {
        ReportedStays(s, s', p);
      } else {
        LargestEndIs(s'.mailed);
        var j :| 0 <= j < |s'.mailed| && s'.mailed[j].end == LargestEnd(s'.mailed);
        assert Taken(s, if j < |s.mailed| then s.mailed[j] else s.sending[k]);
        BelowIsReported(s', p, j);
      }
    }
  }

  lemma StepKeepsAll(s: State, step: Step)
    requires WellFormed(s) && NothingLost(s) && Enabled(s, step) && Safe(s, step)
    ensures WellFormed(Apply(s, step)) && NothingLost(Apply(s, step))
  {
    StepWellFormed(s, step);
    if step.Sent? {
      SafeDelivery(s, step.k);
    } else {
      forall p: nat | p < Cut(Apply(s, step)) ensures Reported(Apply(s, step), p) {
        ReportedStays(s, Apply(s, step), p);
      }
    }
  }

  lemma {:induction false} RunKeepsAll(s: State, steps: seq<Step>)
    requires WellFormed(s) && NothingLost(s) && CanRun(s, steps, Safe)
    ensures WellFormed(End(s, steps, Safe)) && NothingLost(End(s, steps, Safe))
    decreases |steps|
  {
    if steps == [] {
      assert End(s, steps, Safe) == s;
    } else {
      hide WellFormed, NothingLost;
      StepKeepsAll(s, steps[0]);
      RunKeepsAll(Apply(s, steps[0]), steps[1..]);
    }
  }

  /** The p-th queued item still waits in the buffer. */
  predicate Waiting(s: State, p: nat) {
    Cut(s) <= p < |s.queued| && p - Cut(s) < |s.buffer| && s.buffer[p - Cut(s)] == s.queued[p]
  }

  /** Whatever is queued, sent and failed, in whatever order and overlap, as long as every delivery is safe: an
      item is still in the buffer, has been mailed, or has been superseded by a newer item that was mailed. */
  lemma NothingIsLost(steps: seq<Step>, p: nat)
    requires CanRun(INITIAL, steps, Safe) && p < |End(INITIAL, steps, Safe).queued|
    ensures Waiting(End(INITIAL, steps, Safe), p) || Reported(End(INITIAL, steps, Safe), p)
  {
    RunKeepsAll(INITIAL, steps);
    var s := End(INITIAL, steps, Safe);
    assert p >= Cut(s) ==> s.buffer[p - Cut(s)] == s.queued[p];
  }

  // --- sends that do not overlap are safe ---

  ghost predicate Lone(s: State) {
    s.begun + |s.sending| <= 1 && forall k :: 0 <= k < |s.sending| ==> s.sending[k].start == Cut(s)
  }

  lemma LoneIsSafe(s: State, step: Step)
    requires WellFormed(s) && Lone(s) && Enabled(s, step)
    ensures Safe(s, step)
    ensures Solo(s, step) ==> Lone(Apply(s, step))
  {
    StepWellFormed(s, step);
    if step.Sent? {
      var m := s.sending[step.k];
      assert Taken(s, m) && |Dedup(s.queued[m.start..m.end])| <= m.end - m.start;
      var mails := s.mailed + [m];
      assert mails[|s.mailed|] == m;
      LargestEndIs(mails);
    }
  }

  lemma {:induction false} SoloIsSafe(s: State, steps: seq<Step>)
    requires WellFormed(s) && Lone(s) && CanRun(s, steps, Solo)
    ensures CanRun(s, steps, Safe) && End(s, steps, Safe) == End(s, steps, Solo)
    decreases |steps|
  {
    if steps == [] {
      assert CanRun(s, steps, Safe);
    } else {
      hide WellFormed, Lone;
      LoneIsSafe(s, steps[0]);
      StepWellFormed(s, steps[0]);
      SoloIsSafe(Apply(s, steps[0]), steps[1..]);
    }
  }

  lemma InitiallyFine()
    ensures WellFormed(INITIAL) && Lone(INITIAL) && NothingLost(INITIAL)
  {
  }

  /** Over any run in which sends do not overlap, nothing is lost. */
  lemma SoloLosesNothing(steps: seq<Step>, p: nat)
    requires CanRun(INITIAL, steps, Solo) && p < |End(INITIAL, steps, Solo).queued|
    ensures Waiting(End(INITIAL, steps, Solo), p) || Reported(End(INITIAL, steps, Solo), p)
  {
    InitiallyFine();
    hide Waiting, Reported, WellFormed, Lone;
    SoloIsSafe(INITIAL, steps);
    NothingIsLost(steps, p);
  }

  // --- two sends of one snapshot ---

  lemma OneMore(s: State, step: Step, rest: seq<Step>)
    requires Enabled(s, step) && CanRun(Apply(s, step), rest, Any)
    ensures CanRun(s, [step] + rest, Any) && End(s, [step] + rest, Any) == End(Apply(s, step), rest, Any)
  {
    assert ([step] + rest)[1..] == rest;
  }

  /** Up to both snapshots. */
  lemma OverlapStart(x: Item, steps: seq<Step>)
    requires CanRun(State([x], [x], 0, [Snapshot([x], 0, 1), Snapshot([x], 0, 1)], []), steps, Any)
    ensures var all := [Queue(x)] + ([Begin] + ([Begin] + ([Prepare] + ([Prepare] + steps))));
            && CanRun(INITIAL, all, Any)
            && End(INITIAL, all, Any) == End(State([x], [x], 0, [Snapshot([x], 0, 1), Snapshot([x], 0, 1)], []), steps, Any)
  {
    var m := Snapshot([x], 0, 1);
    var s1, s2, s3 := State([x], [x], 0, [], []), State([x], [x], 1, [], []), State([x], [x], 2, [], []);
    var s4, s5 := State([x], [x], 1, [m], []), State([x], [x], 0, [m, m], []);
    assert Dedup([x]) == [x];
    assert Apply(s4, Prepare) == s5 && Apply(s3, Prepare) == s4;
    assert Apply(s2, Begin) == s3 && Apply(s1, Begin) == s2 && Apply(INITIAL, Queue(x)) == s1;
    hide Apply, CanRun, End;
    OneMore(s4, Prepare, steps);
    OneMore(s3, Prepare, [Prepare] + steps);
    OneMore(s2, Begin, [Prepare] + ([Prepare] + steps));
    OneMore(s1, Begin, [Begin] + ([Prepare] + ([Prepare] + steps)));
    OneMore(INITIAL, Queue(x), [Begin] + ([Begin] + ([Prepare] + ([Prepare] + steps))));
  }

  /** From both snapshots on: another item is queued, then both mails are delivered. */
  lemma OverlapEnd(x: Item, y: Item)
    ensures var m, steps := Snapshot([x], 0, 1), [Queue(y)] + ([Sent(0)] + ([Sent(0)] + []));
            && CanRun(State([x], [x], 0, [m, m], []), steps, Any)
            && End(State([x], [x], 0, [m, m], []), steps, Any) == State([], [x, y], 0, [], [m, m])
  {
    var m := Snapshot([x], 0, 1);
    var s5, s6 := State([x], [x], 0, [m, m], []), State([x, y], [x, y], 0, [m, m], []);
    var s7, s8 := State([y], [x, y], 0, [m], [m]), State([], [x, y], 0, [], [m, m]);
    assert Apply(s7, Sent(0)) == s8 && Apply(s6, Sent(0)) == s7 && Apply(s5, Queue(y)) == s6;
    assert CanRun(s8, [], Any) && End(s8, [], Any) == s8;
    hide Apply, CanRun, End;
    OneMore(s7, Sent(0), []);
    OneMore(s6, Sent(0), [Sent(0)] + []);
    OneMore(s5, Queue(y), [Sent(0)] + ([Sent(0)] + []));
  }

  /** Two overlapping sends of the same snapshot remove an item that no mail reports. */
  lemma OverlapLoses(x: Item, y: Item)
    ensures var steps := [Queue(x)] + ([Begin] + ([Begin] + ([Prepare] + ([Prepare]
                         + ([Queue(y)] + ([Sent(0)] + ([Sent(0)] + [])))))));
            && CanRun(INITIAL, steps, Any)
            && var s := End(INITIAL, steps, Any);
               s.queued == [x, y] && !Waiting(s, 1) && !Reported(s, 1)
  {
    OverlapEnd(x, y);
    OverlapStart(x, [Queue(y)] + ([Sent(0)] + ([Sent(0)] + [])));
    hide CanRun, End;
    var m := Snapshot([x], 0, 1);
    assert !Reported(State([], [x, y], 0, [], [m, m]), 1);
  }

  // --- the buffer itself ---

  class DigestBuffer {
    var items: seq<Item>
    /** The mails that are being sent. */
    var mails: seq<seq<Item>>
    /** The sends that are between the check of the buffer and their snapshot. */
    var begun: nat
    ghost var queued: seq<Item>
    ghost var sending: seq<Snapshot>
    ghost var mailed: seq<Snapshot>

    ghost function View(): State
      reads this
    {
      State(items, queued, begun, sending, mailed)
    }

    ghost predicate Valid()
      reads this
    {
      |mails| == |sending| && forall k :: 0 <= k < |mails| ==> mails[k] == sending[k].mail
    }

    constructor ()
      ensures View() == INITIAL && Valid()
    {
      items, mails, begun, queued, sending, mailed := [], [], 0, [], [], [];
    }

    method QueueForDigest(item: Item)
      requires Valid()
      modifies this
      ensures View() == Apply(old(View()), Queue(item)) && Valid()
    {
      items := items + [item];
      queued := queued + [item];
    }

    /** sendDigest up to its first await: nothing to do for an empty buffer. */
    method BeginDigest()
      requires Valid()
      modifies this
      ensures View() == (if old(items) == [] then old(View()) else Apply(old(View()), Begin)) && Valid()
    {
      if items == [] { return; }
      begun := begun + 1;
    }

    /** No settings, or no recipients. */
    method GiveUpDigest()
      requires Valid() && begun > 0
      modifies this
      ensures View() == Apply(old(View()), GiveUp) && Valid()
    {
      begun := begun - 1;
    }

    /** sendDigest from the last of these awaits up to the call of sendEmail. The buffer may be empty by now. */
    method PrepareDigest()
      requires Valid() && begun > 0
      modifies this
      ensures View() == Apply(old(View()), Prepare) && Valid()
    {
      var kept := DeduplicateDigestItems(items);
      begun := begun - 1;
      sending := sending + [Snapshot(kept, Cut(View()), |queued|)];
      mails := mails + [kept];
    }

    /** sendDigest after a successful sendEmail. */
    method DigestSent(k: nat)
      requires Valid() && k < |mails|
      modifies this
      ensures View() == Apply(old(View()), Sent(k)) && Valid()
    {
      var mail := mails[k];
      items := items[if |mail| < |items| then |mail| else |items|..];
      mails := mails[..k] + mails[k + 1..];
      mailed := mailed + [sending[k]];
      sending := sending[..k] + sending[k + 1..];
    }

    /** sendEmail failed: the buffer is left alone. */
    method DigestFailed(k: nat)
      requires Valid() && k < |mails|
      modifies this
      ensures View() == Apply(old(View()), Failed(k)) && Valid()
    {
      mails := mails[..k] + mails[k + 1..];
      sending := sending[..k] + sending[k + 1..];
    }

    /** Whatever happens to the buffer, it moves along a run. */
    method Drive(steps: seq<Step>)
      requires Valid() && CanRun(View(), steps, Any)
      modifies this
      ensures View() == End(old(View()), steps, Any) && Valid()
    {
      for i := 0 to |steps|
        invariant Valid() && CanRun(View(), steps[i..], Any)
        invariant End(View(), steps[i..], Any) == End(old(View()), steps, Any)
      {
        assert steps[i..][0] == steps[i] && steps[i..][1..] == steps[i + 1..];
        match steps[i] {
          case Queue(item) => QueueForDigest(item);
          case Begin => BeginDigest();
          case GiveUp => GiveUpDigest();
          case Prepare => PrepareDigest();
          case Sent(k) => DigestSent(k);
          case Failed(k) => DigestFailed(k);
        }
      }
    }
  }
}
