/** What a digest drops, written out on the items themselves, and what its delivery leaves in the buffer. */
module DigestRepeats {
  import opened Digest

  /** The item is one of six events and the newer one is the same event of the same machine; items without a
      machine count as one machine, "_global". */
  predicate Outdated(item: Item, newer: Item) {
    && item.event in ["machineUpdatesAvailable", "scanCompleted", "agentOffline", "serverUpdateAvailable",
                      "highCve", "criticalCve"]
    && newer.event == item.event
    && (if newer.machineId.Some? then newer.machineId.value else "_global")
       == (if item.machineId.Some? then item.machineId.value else "_global")
  }

  lemma SameKeyMeans(a: Item, b: Item)
    ensures SameKey(a, b) <==> Outdated(a, b)
  {
    if Recurring(a) && Recurring(b) {
      KeyMeans(a, b);
    }
  }

  /** The items that a digest drops are those that a later one outdates. */
  lemma KeptMeans(items: seq<Item>, i: nat)
    requires i < |items|
    ensures i in Positions(items) <==> forall j :: i < j < |items| ==> !Outdated(items[i], items[j])
  {
    KeptExactly(items, i);
    hide SameKey, Outdated, Positions;
    var later := items[i + 1..];
    if Superseded(items[i], later) {
      var k :| 0 <= k < |later| && SameKey(items[i], later[k]);
      SameKeyMeans(items[i], items[k + i + 1]);
    }
    if j :| i < j < |items| && Outdated(items[i], items[j]) {
      SameKeyMeans(items[i], items[j]);
      assert later[j - i - 1] == items[j];
    }
  }

  // --- what a delivery leaves behind ---

  /** Some item between two positions is outdated by a later one. */
  predicate Repeats(items: seq<Item>, lo: nat, hi: nat)
    requires lo <= hi <= |items|
  {
    exists i, j :: lo <= i < j < hi && Outdated(items[i], items[j])
  }

  /** Deduplication drops something exactly if some item is outdated by a later one. */
  lemma {:induction false} DropsNothing(items: seq<Item>)
    ensures |Dedup(items)| < |items| <==> Repeats(items, 0, |items|)
  {
    if items == [] {
    } else {
      DropsNothing(items[1..]);
      SupersededMeans(items[0], items[1..]);
      RepeatsHead(items);
      hide Repeats, Outdated, Superseded;
    }
  }

  lemma RepeatsHead(items: seq<Item>)
    requires items != []
    ensures Repeats(items, 0, |items|) <==>
              (exists j :: 0 <= j < |items[1..]| && Outdated(items[0], items[1..][j])) || Repeats(items[1..], 0, |items| - 1)
  {
    hide Outdated;
    var rest := items[1..];
    if Repeats(items, 0, |items|) {
      var i, j :| 0 <= i < j < |items| && Outdated(items[i], items[j]);
      assert items[j] == rest[j - 1];
      assert i > 0 ==> items[i] == rest[i - 1];
    }
    if Repeats(rest, 0, |rest|) {
      var i, j :| 0 <= i < j < |rest| && Outdated(rest[i], rest[j]);
      assert items[i + 1] == rest[i] && items[j + 1] == rest[j];
    }
    if j :| 0 <= j < |rest| && Outdated(items[0], rest[j]) {
      assert items[j + 1] == rest[j];
    }
  }

  lemma SupersededMeans(x: Item, rest: seq<Item>)
    ensures Superseded(x, rest) <==> exists j :: 0 <= j < |rest| && Outdated(x, rest[j])
  {
    forall j | 0 <= j < |rest| {
      SameKeyMeans(x, rest[j]);
    }
  }

  lemma LastIsKept(items: seq<Item>)
    requires items != []
    ensures |items| - 1 in Positions(items)
  {
    KeptExactly(items, |items| - 1);
  }

  lemma AfterDelivery(s: State, k: nat)
    requires WellFormed(s) && k < |s.sending| && s.sending[k].start == Cut(s)
    ensures var m, s' := s.sending[k], Apply(s, Sent(k));
            && Taken(s, m) && |m.mail| == |Dedup(s.queued[m.start..m.end])|
            && Cut(s') == m.start + |m.mail| <= m.end
            && s'.queued == s.queued && s'.buffer == s.queued[m.start + |m.mail|..]
  {
    assert Taken(s, s.sending[k]);
    StepBuffer(s, Sent(k));
    hide Dedup;
  }

  lemma WaitingFrom(s: State, p: nat)
    requires Cut(s) <= |s.queued| && s.buffer == s.queued[Cut(s)..]
    ensures Waiting(s, p) <==> Cut(s) <= p < |s.queued|
  {
    hide Cut;
  }

  lemma LastIsMailed(s: State, m: Snapshot)
    requires Taken(s, m) && m.start < m.end
    ensures s.queued[m.end - 1] in m.mail
  {
    var items := s.queued[m.start..m.end];
    hide Positions, Dedup;
    assert items[|items| - 1] == s.queued[m.end - 1];
    LastIsKept(items);
    PositionIsKept(items, |items| - 1);
  }

  /** When nothing else has left the buffer since the snapshot, the delivery removes as many items as the mail had.
      That clears the snapshot exactly if none of its items outdates another; otherwise the newest one, although
      it has been mailed, stays in the buffer and will be mailed again. */
  lemma MailedAgainExactly(s: State, k: nat)
    requires WellFormed(s) && k < |s.sending| && s.sending[k].start == Cut(s)
    ensures var m, s' := s.sending[k], Apply(s, Sent(k));
            && m.start + |m.mail| <= m.end <= |s.queued| && s'.buffer == s.queued[m.start + |m.mail|..]
            && ((exists p: nat :: p < m.end && Waiting(s', p)) <==> Repeats(s.queued, m.start, m.end))
            && (m.start + |m.mail| < m.end ==> Waiting(s', m.end - 1) && s.queued[m.end - 1] in m.mail)
  {
    var m, s' := s.sending[k], Apply(s, Sent(k));
    AfterDelivery(s, k);
    DropsNothing(s.queued[m.start..m.end]);
    SnapshotPairs(s.queued, m);
    if m.start < m.end {
      LastIsMailed(s, m);
    }
    hide Repeats, Apply, Dedup, WellFormed, Taken, Waiting;
    forall p: nat ensures Waiting(s', p) <==> m.start + |m.mail| <= p < |s.queued| {
      WaitingFrom(s', p);
    }
    if m.start + |m.mail| < m.end {
      assert Waiting(s', m.end - 1);
    }
  }

  /** Positions in the snapshot and positions in the queue. */
  lemma SnapshotPairs(queued: seq<Item>, m: Snapshot)
    requires m.start <= m.end <= |queued|
    ensures Repeats(queued[m.start..m.end], 0, m.end - m.start) <==> Repeats(queued, m.start, m.end)
  {
    hide Outdated;
    var items := queued[m.start..m.end];
    if Repeats(queued, m.start, m.end) {
      var i, j :| m.start <= i < j < m.end && Outdated(queued[i], queued[j]);
      assert items[i - m.start] == queued[i] && items[j - m.start] == queued[j];
    }
    if Repeats(items, 0, |items|) {
      var i, j :| 0 <= i < j < |items| && Outdated(items[i], items[j]);
      assert items[i] == queued[i + m.start] && items[j] == queued[j + m.start];
    }
  }
}
