/** One range of an OSV record: the matcher's single pass over its events, and the sweep that the
    "Evaluation" section of the OSV Schema prescribes. The comparison of versions is an unknown total preorder. */
module OsvRange {

  import opened Wrappers

  /** JSON tells an absent field from null. */
  datatype Introduced = Undefined | Null | Text(text: string)

  datatype Event = Event(introduced: Introduced, fixed: Option<string>, lastAffected: Option<string>)

  type Compare = (string, string) -> int

  ghost predicate Preorder(compare: Compare) {
    && (forall a, b :: compare(a, b) < 0 <==> compare(b, a) > 0)
    && (forall a, b, c :: compare(a, b) <= 0 && compare(b, c) <= 0 ==> compare(a, c) <= 0)
  }

  /** A string that is present and not empty. */
  predicate Truthy(s: Option<string>) { s.Some? && s.value != "" }

  // --- the single pass ---

  predicate VersionBetween(compare: Compare, v: string, lower: Option<string>, upper: Option<string>, inclusiveUpper: bool) {
    && (Truthy(lower) ==> compare(v, lower.value) >= 0)
    && (Truthy(upper) ==> if inclusiveUpper then compare(v, upper.value) <= 0 else compare(v, upper.value) < 0)
  }

  function AfterIntroduced(i: Introduced): Option<string>
    requires !i.Undefined?
  {
    if i.Text? then Some(i.text) else None
  }

  /** The answer of the pass from here on, when the last open lower bound is `introduced`. */
  predicate Scan(compare: Compare, v: string, events: seq<Event>, introduced: Option<string>) {
    if events == [] then
      introduced.Some? && VersionBetween(compare, v, introduced, None, true)
    else
      var e := events[0];
      if !e.introduced.Undefined? then
        Scan(compare, v, events[1..], AfterIntroduced(e.introduced))
      else if Truthy(e.fixed) && VersionBetween(compare, v, introduced, e.fixed, false) then
        true
      else
        var lower := if Truthy(e.fixed) then None else introduced;
        if Truthy(e.lastAffected) && VersionBetween(compare, v, lower, e.lastAffected, true) then
          true
        else
          Scan(compare, v, events[1..], if Truthy(e.lastAffected) then None else lower)
  }

  // --- ranges as the schema wants them ---

  predicate Opens(e: Event) { e.introduced.Text? && e.introduced.text != "" && e.fixed.None? && e.lastAffected.None? }

  predicate Fixes(e: Event) { e.introduced.Undefined? && Truthy(e.fixed) && e.lastAffected.None? }

  predicate EndsAfter(e: Event) { e.introduced.Undefined? && e.fixed.None? && Truthy(e.lastAffected) }

  /** The single version a well-formed event names. */
  function VersionOf(e: Event): string {
    if e.introduced.Text? then e.introduced.text
    else if e.fixed.Some? then e.fixed.value
    else if e.lastAffected.Some? then e.lastAffected.value
    else ""
  }

  /** introduced, then fixed or last_affected, and so on; the last interval may stay open. */
  predicate Alternates(events: seq<Event>) {
    forall i :: 0 <= i < |events| ==> if i % 2 == 0 then Opens(events[i]) else Fixes(events[i]) || EndsAfter(events[i])
  }

  predicate Ordered(compare: Compare, events: seq<Event>) {
    forall i, j :: 0 <= i <= j < |events| ==> compare(VersionOf(events[i]), VersionOf(events[j])) <= 0
  }

  /** The event applies to `v`: the sweep changes its answer here. */
  predicate Effective(compare: Compare, v: string, e: Event) {
    if EndsAfter(e) then compare(v, VersionOf(e)) > 0 else compare(v, VersionOf(e)) >= 0
  }

  /** The schema's evaluation after the first `n` events: vulnerable from each introduced version on,
      no longer from each fixed version on, no longer beyond each last affected version. */
  predicate Sweep(compare: Compare, v: string, events: seq<Event>, n: nat)
    requires n <= |events|
  {
    if n == 0 then false
    else if Effective(compare, v, events[n - 1]) then Opens(events[n - 1])
    else Sweep(compare, v, events, n - 1)
  }

  /** `v` lies between the opening event k and the event that closes it, if any. */
  predicate Within(compare: Compare, v: string, events: seq<Event>, k: nat)
    requires k < |events|
  {
    && k % 2 == 0
    && compare(v, VersionOf(events[k])) >= 0
    && (k + 1 < |events| ==> !Effective(compare, v, events[k + 1]))
  }

  /** A fixed version that repeats an earlier last affected version, with nothing introduced at it again. */
  predicate Clash(compare: Compare, events: seq<Event>, c: nat, j: nat)
    requires c < j < |events|
  {
    && EndsAfter(events[c])
    && Fixes(events[j])
    && compare(VersionOf(events[c]), VersionOf(events[j])) == 0
    && (j + 1 < |events| ==> compare(VersionOf(events[j]), VersionOf(events[j + 1])) < 0)
  }

  predicate HasClash(compare: Compare, events: seq<Event>) {
    exists c: nat, j: nat :: c < j < |events| && Clash(compare, events, c, j)
  }

  // --- what the two compute ---

  lemma ScanPair(compare: Compare, v: string, events: seq<Event>)
    requires Preorder(compare) && Alternates(events) && |events| >= 2
    ensures Scan(compare, v, events, None) <==> Within(compare, v, events, 0) || Scan(compare, v, events[2..], None)
  {
    var lower := Some(VersionOf(events[0]));
    assert Opens(events[0]);
    assert Scan(compare, v, events, None) == Scan(compare, v, events[1..], lower);
    assert events[1..][0] == events[1] && events[1..][1..] == events[2..];
    assert Fixes(events[1]) || EndsAfter(events[1]);
  }

  lemma AlternatesTail(events: seq<Event>)
    requires Alternates(events) && |events| >= 2
    ensures Alternates(events[2..])
  {
    forall i | 0 <= i < |events[2..]|
      ensures if i % 2 == 0 then Opens(events[2..][i]) else Fixes(events[2..][i]) || EndsAfter(events[2..][i])
    {
      assert events[2..][i] == events[i + 2];
    }
  }

  predicate SomeInterval(compare: Compare, v: string, events: seq<Event>) {
    exists k: nat :: k < |events| && Within(compare, v, events, k)
  }

  /** The pass finds exactly the versions inside one of the intervals. */
  lemma {:induction false} ScanIsIntervals(compare: Compare, v: string, events: seq<Event>)
    requires Preorder(compare) && Alternates(events)
    ensures Scan(compare, v, events, None) <==> SomeInterval(compare, v, events)
  {
    if |events| == 1 {
      assert Opens(events[0]);
      assert Scan(compare, v, events[1..], Some(VersionOf(events[0]))) <==> Within(compare, v, events, 0);
    } else if |events| >= 2 {
      ScanPair(compare, v, events);
      AlternatesTail(events);
      ScanIsIntervals(compare, v, events[2..]);
      TailIntervals(compare, v, events);
    }
  }

  lemma TailIntervals(compare: Compare, v: string, events: seq<Event>)
    requires |events| >= 2
    ensures SomeInterval(compare, v, events) <==> Within(compare, v, events, 0) || SomeInterval(compare, v, events[2..])
  {
    forall k: nat | k < |events[2..]| ensures Within(compare, v, events[2..], k) <==> Within(compare, v, events, k + 2) {
      assert events[2..][k] == events[k + 2];
    }
    if SomeInterval(compare, v, events) && !Within(compare, v, events, 0) {
      var k: nat :| k < |events| && Within(compare, v, events, k);
      assert k >= 2;
      assert Within(compare, v, events[2..], k - 2);
    }
  }

  /** The sweep's answer is that of the last event that applies. */
  lemma {:induction false} LastEffective(compare: Compare, v: string, events: seq<Event>, n: nat, k: nat) returns (j: nat)
    requires k < n <= |events| && Effective(compare, v, events[k])
    ensures k <= j < n && Effective(compare, v, events[j]) && Sweep(compare, v, events, n) == Opens(events[j])
    ensures forall i :: j < i < n ==> !Effective(compare, v, events[i])
  {
    if Effective(compare, v, events[n - 1]) {
      j := n - 1;
    } else {
      j := LastEffective(compare, v, events, n - 1, k);
    }
  }

  lemma {:induction false} SweepNeedsEvent(compare: Compare, v: string, events: seq<Event>, n: nat) returns (k: nat)
    requires n <= |events| && Sweep(compare, v, events, n)
    ensures k < n && Effective(compare, v, events[k]) && Opens(events[k])
    ensures forall i :: k < i < n ==> !Effective(compare, v, events[i])
  {
    if Effective(compare, v, events[n - 1]) {
      k := n - 1;
    } else {
      k := SweepNeedsEvent(compare, v, events, n - 1);
    }
  }

  lemma SweepImpliesScan(compare: Compare, v: string, events: seq<Event>)
    requires Preorder(compare) && Alternates(events) && Sweep(compare, v, events, |events|)
    ensures Scan(compare, v, events, None)
  {
    var k := SweepNeedsEvent(compare, v, events, |events|);
    assert k % 2 == 0;
    assert Within(compare, v, events, k);
    ScanIsIntervals(compare, v, events);
  }

  /** The pass can only exceed the sweep at a clash. */
  lemma DisagreementIsClash(compare: Compare, v: string, events: seq<Event>)
    requires Preorder(compare) && Alternates(events) && Ordered(compare, events)
    requires Scan(compare, v, events, None) && !Sweep(compare, v, events, |events|)
    ensures HasClash(compare, events)
  {
    hide VersionOf, Ordered, Clash, Sweep, Scan;
    ScanIsIntervals(compare, v, events);
    var k: nat :| k < |events| && Within(compare, v, events, k);
    assert Opens(events[k]);
    var j := LastEffective(compare, v, events, |events|, k);
    assert j % 2 == 1 && j != k + 1;
    assert Fixes(events[k + 1]) || EndsAfter(events[k + 1]);
    assert Fixes(events[j]) || EndsAfter(events[j]);
    IsClash(compare, v, events, k + 1, j);
  }

  /** A closing event that does not apply to `v`, with a later one that does, after which nothing more applies. */
  lemma IsClash(compare: Compare, v: string, events: seq<Event>, c: nat, j: nat)
    requires Preorder(compare) && Ordered(compare, events) && c < j < |events|
    requires Fixes(events[c]) || EndsAfter(events[c])
    requires Fixes(events[j]) || EndsAfter(events[j])
    requires !Effective(compare, v, events[c]) && Effective(compare, v, events[j])
    requires j + 1 < |events| ==> !EndsAfter(events[j + 1]) && !Effective(compare, v, events[j + 1])
    ensures Clash(compare, events, c, j)
  {
    hide VersionOf;
    var a, b := VersionOf(events[c]), VersionOf(events[j]);
    assert compare(a, b) <= 0;
    assert compare(b, v) <= 0;
    assert compare(a, v) <= 0;
    if j + 1 < |events| {
      StrictlyAfter(compare, b, v, VersionOf(events[j + 1]));
    }
  }

  lemma StrictlyAfter(compare: Compare, a: string, b: string, c: string)
    requires Preorder(compare) && compare(a, b) <= 0 && compare(b, c) < 0
    ensures compare(a, c) < 0
  {
    assert compare(c, a) <= 0 ==> compare(c, b) <= 0;
  }

  /** At a clash the pass still reports the last affected version, and the sweep does not. */
  lemma ClashDisagrees(compare: Compare, events: seq<Event>, c: nat, j: nat)
    requires Preorder(compare) && Alternates(events) && Ordered(compare, events)
    requires c < j < |events| && Clash(compare, events, c, j)
    ensures Scan(compare, VersionOf(events[c]), events, None) && !Sweep(compare, VersionOf(events[c]), events, |events|)
  {
    var v := VersionOf(events[c]);
    hide VersionOf, Scan, Sweep, Alternates, Ordered;
    ClashWithin(compare, events, c);
    ScanIsIntervals(compare, v, events);
    assert compare(v, VersionOf(events[j])) == 0;
    assert Effective(compare, v, events[j]);
    var i := LastEffective(compare, v, events, |events|, j);
    if i > j {
      NothingLater(compare, v, events, j, i);
    }
  }

  lemma NothingLater(compare: Compare, v: string, events: seq<Event>, j: nat, i: nat)
    requires Preorder(compare) && Ordered(compare, events) && j < i < |events|
    requires compare(v, VersionOf(events[j])) <= 0 && compare(VersionOf(events[j]), VersionOf(events[j + 1])) < 0
    ensures !Effective(compare, v, events[i])
  {
    hide VersionOf;
    var a, b, c := VersionOf(events[j]), VersionOf(events[j + 1]), VersionOf(events[i]);
    assert compare(b, c) <= 0;
    StrictlyAfter(compare, v, a, b);
    assert compare(c, v) <= 0 ==> compare(b, v) <= 0;
  }

  /** The interval that a clashing last affected version closes. */
  lemma ClashWithin(compare: Compare, events: seq<Event>, c: nat)
    requires Preorder(compare) && Alternates(events) && Ordered(compare, events)
    requires c < |events| && EndsAfter(events[c])
    ensures c > 0 && Within(compare, VersionOf(events[c]), events, c - 1)
  {
    hide VersionOf;
    assert c % 2 == 1;
    assert compare(VersionOf(events[c - 1]), VersionOf(events[c])) <= 0;
    assert compare(VersionOf(events[c]), VersionOf(events[c])) <= 0;
  }

  /** For ranges in order, the single pass and the schema's sweep agree on every version exactly when no fixed
      version repeats an earlier last affected one. */
  lemma ScanMeetsSchema(compare: Compare, events: seq<Event>)
    requires Preorder(compare) && Alternates(events) && Ordered(compare, events)
    ensures (forall v: string :: Scan(compare, v, events, None) == Sweep(compare, v, events, |events|))
            <==> !HasClash(compare, events)
  {
    if HasClash(compare, events) {
      var c: nat, j: nat :| c < j < |events| && Clash(compare, events, c, j);
      ClashDisagrees(compare, events, c, j);
    } else {
      forall v: string ensures Scan(compare, v, events, None) == Sweep(compare, v, events, |events|) {
        Agreement(compare, v, events);
      }
    }
  }

  lemma Agreement(compare: Compare, v: string, events: seq<Event>)
    requires Preorder(compare) && Alternates(events) && Ordered(compare, events) && !HasClash(compare, events)
    ensures Scan(compare, v, events, None) == Sweep(compare, v, events, |events|)
  {
    if Sweep(compare, v, events, |events|) {
      SweepImpliesScan(compare, v, events);
    } else if Scan(compare, v, events, None) {
      DisagreementIsClash(compare, v, events);
    }
  }

  /** Such ranges exist: affected from `a` up to and including `b`, and from `b` up to but excluding `b`. */
  lemma ClashingRange(compare: Compare, a: string, b: string)
    requires Preorder(compare) && compare(a, b) < 0 && a != "" && b != ""
    ensures var events := [Event(Text(a), None, None), Event(Undefined, None, Some(b)),
                           Event(Text(b), None, None), Event(Undefined, Some(b), None)];
            && Alternates(events) && Ordered(compare, events)
            && Scan(compare, b, events, None) && !Sweep(compare, b, events, |events|)
  {
    var events := [Event(Text(a), None, None), Event(Undefined, None, Some(b)),
                   Event(Text(b), None, None), Event(Undefined, Some(b), None)];
    ClashingOrder(compare, a, b, events);
    assert Clash(compare, events, 1, 3);
    hide Alternates, Ordered, Clash, Scan, Sweep;
    ClashDisagrees(compare, events, 1, 3);
  }

  lemma ClashingOrder(compare: Compare, a: string, b: string, events: seq<Event>)
    requires Preorder(compare) && compare(a, b) < 0
    requires |events| == 4 && VersionOf(events[0]) == a
    requires VersionOf(events[1]) == VersionOf(events[2]) == VersionOf(events[3]) == b
    ensures Ordered(compare, events) && compare(b, b) == 0
  {
    assert compare(a, a) == 0 && compare(b, b) == 0;
    hide VersionOf;
    forall i, j | 0 <= i <= j < |events| ensures compare(VersionOf(events[i]), VersionOf(events[j])) <= 0 {
      assert j > 0 ==> VersionOf(events[j]) == b;
      assert i > 0 ==> VersionOf(events[i]) == b;
    }
  }

  /** Versions that strictly increase never clash. */
  lemma IncreasingHasNoClash(compare: Compare, events: seq<Event>)
    requires forall i, j :: 0 <= i < j < |events| ==> compare(VersionOf(events[i]), VersionOf(events[j])) < 0
    ensures !HasClash(compare, events)
  {
  }

  method IsVersionInRange(compare: Compare, version: string, events: seq<Event>) returns (r: bool)
    requires Preorder(compare)
    ensures r == Scan(compare, version, events, None)
    ensures Alternates(events) && Ordered(compare, events) && !HasClash(compare, events)
            ==> r == Sweep(compare, version, events, |events|)
  {
    if events == [] { return false; }
    if Alternates(events) && Ordered(compare, events) && !HasClash(compare, events) {
      Agreement(compare, version, events);
    }
    var introduced: Option<string> := None;
    for i := 0 to |events|
      invariant Scan(compare, version, events, None) == Scan(compare, version, events[i..], introduced)
    {
      var event := events[i];
      assert events[i..][0] == event && events[i..][1..] == events[i + 1..];
      if !event.introduced.Undefined? {
        introduced := AfterIntroduced(event.introduced);
        continue;
      }
      if Truthy(event.fixed) {
        if VersionBetween(compare, version, introduced, event.fixed, false) { return true; }
        introduced := None;
      }
      if Truthy(event.lastAffected) {
        if VersionBetween(compare, version, introduced, event.lastAffected, true) { return true; }
        introduced := None;
      }
    }
    if introduced.Some? {
      return VersionBetween(compare, version, introduced, None, true);
    }
    return false;
  }
}
