/** What the matcher's pass over an OSV range answers on any list of events, also one the schema does not allow:
    closed twice, opened twice, null or empty versions, several versions in one event. */
module OsvLists {
  import opened Wrappers
  import opened OsvRange

  predicate NonEmpty(s: Option<string>) { s.Some? && s.value != "" }

  /** The interval opened by event i is still open before event n. */
  ghost predicate OpenSince(events: seq<Event>, i: int, n: int) {
    && 0 <= i < n <= |events| && events[i].introduced.Text?
    && forall k :: i < k < n ==>
         events[k].introduced.Undefined? && !NonEmpty(events[k].fixed) && !NonEmpty(events[k].lastAffected)
  }

  /** `v` is not below the open interval; an empty version bounds nothing. */
  ghost predicate NotBelow(compare: Compare, v: string, events: seq<Event>, n: int) {
    forall i :: OpenSince(events, i, n) ==>
      events[i].introduced.text == "" || compare(v, events[i].introduced.text) >= 0
  }

  /** Event j closes an interval that holds `v`. Where nothing is open, the interval has no lower end; and after a
      fixed version nothing is open any more. */
  ghost predicate ClosesAbove(compare: Compare, v: string, events: seq<Event>, j: int)
    requires 0 <= j < |events|
  {
    var e := events[j];
    && e.introduced.Undefined?
    && (|| (NonEmpty(e.fixed) && compare(v, e.fixed.value) < 0 && NotBelow(compare, v, events, j))
        || (NonEmpty(e.lastAffected) && compare(v, e.lastAffected.value) <= 0
            && (NonEmpty(e.fixed) || NotBelow(compare, v, events, j))))
  }

  ghost predicate EndsOpen(compare: Compare, v: string, events: seq<Event>) {
    exists i :: OpenSince(events, i, |events|)
                && (events[i].introduced.text == "" || compare(v, events[i].introduced.text) >= 0)
  }

  /** `introduced`, as the pass holds it before event n. */
  ghost predicate Holds(events: seq<Event>, n: int, introduced: Option<string>) {
    && 0 <= n <= |events|
    && (introduced.Some? ==> exists i :: OpenSince(events, i, n) && events[i].introduced.text == introduced.value)
    && (introduced.None? ==> forall i :: !OpenSince(events, i, n))
  }

  lemma OneOpen(events: seq<Event>, i: int, j: int, n: int)
    requires OpenSince(events, i, n) && OpenSince(events, j, n)
    ensures i == j
  {
  }

  lemma HoldsMeans(compare: Compare, v: string, events: seq<Event>, n: int, introduced: Option<string>)
    requires Holds(events, n, introduced)
    ensures NotBelow(compare, v, events, n)
            <==> (NonEmpty(introduced) ==> compare(v, introduced.value) >= 0)
  {
    if introduced.Some? {
      var i :| OpenSince(events, i, n) && events[i].introduced.text == introduced.value;
      forall j | OpenSince(events, j, n) ensures j == i {
        OneOpen(events, i, j, n);
      }
    }
  }

  /** What the pass holds after event n. */
  function After(e: Event, introduced: Option<string>): Option<string> {
    if e.introduced.Text? then Some(e.introduced.text)
    else if e.introduced.Null? || NonEmpty(e.fixed) || NonEmpty(e.lastAffected) then None
    else introduced
  }

  lemma HoldsNext(events: seq<Event>, n: int, introduced: Option<string>)
    requires Holds(events, n, introduced) && n < |events|
    ensures Holds(events, n + 1, After(events[n], introduced))
  {
    var e := events[n];
    if e.introduced.Text? {
      assert OpenSince(events, n, n + 1);
    } else if e.introduced.Undefined? && !NonEmpty(e.fixed) && !NonEmpty(e.lastAffected) {
      var m := n + 1;
      forall i ensures OpenSince(events, i, m) ==> OpenSince(events, i, n) {
        assert OpenSince(events, i, m) ==> i != n;
      }
      if introduced.Some? {
        var i :| OpenSince(events, i, n) && events[i].introduced.text == introduced.value;
        assert OpenSince(events, i, n + 1);
      }
    }
  }

  lemma {:induction false} ScanFrom(compare: Compare, v: string, events: seq<Event>, n: nat, introduced: Option<string>)
    requires Holds(events, n, introduced)
    ensures Scan(compare, v, events[n..], introduced)
            <==> (exists j :: n <= j < |events| && ClosesAbove(compare, v, events, j)) || EndsOpen(compare, v, events)
    decreases |events| - n
  {
    HoldsMeans(compare, v, events, n, introduced);
    if n == |events| {
      EndOfPass(compare, v, events, introduced);
    } else {
      HoldsNext(events, n, introduced);
      ScanFrom(compare, v, events, n + 1, After(events[n], introduced));
      assert events[n..][0] == events[n] && events[n..][1..] == events[n + 1..];
      OneEvent(compare, v, events, n, introduced);
      hide Holds, NotBelow, EndsOpen, ClosesAbove, Scan;
    }
  }

  lemma EndOfPass(compare: Compare, v: string, events: seq<Event>, introduced: Option<string>)
    requires Holds(events, |events|, introduced)
    ensures Scan(compare, v, [], introduced) <==> EndsOpen(compare, v, events)
  {
    if introduced.Some? {
      var i :| OpenSince(events, i, |events|) && events[i].introduced.text == introduced.value;
      forall j | OpenSince(events, j, |events|) ensures j == i {
        OneOpen(events, i, j, |events|);
      }
    }
  }

  lemma OneEvent(compare: Compare, v: string, events: seq<Event>, n: nat, introduced: Option<string>)
    requires Holds(events, n, introduced) && n < |events|
    ensures Scan(compare, v, events[n..], introduced)
            <==> ClosesAbove(compare, v, events, n) || Scan(compare, v, events[n + 1..], After(events[n], introduced))
  {
    HoldsMeans(compare, v, events, n, introduced);
    assert events[n..][0] == events[n] && events[n..][1..] == events[n + 1..];
    hide NotBelow, Holds;
  }

  /** The pass answers yes exactly if some event closes an interval that holds `v`, or one that holds it is still
      open at the end. */
  lemma ScanExactly(compare: Compare, v: string, events: seq<Event>)
    ensures Scan(compare, v, events, None)
            <==> (exists j :: 0 <= j < |events| && ClosesAbove(compare, v, events, j)) || EndsOpen(compare, v, events)
  {
    assert events[0..] == events;
    ScanFrom(compare, v, events, 0, None);
  }
}
